/** Collecting the stage outputs of one document, or of many documents through paged queries. */
module StageData {
  import opened Wrappers
  import opened Keyset
  import opened RunFiles
  import Pipeline

  /** A row of the job table; `outputs` are those of its latest run, if it has one. */
  datatype JobRow = JobRow(doc: Id, stage: string, status: Pipeline.Status, outputs: Option<seq<FieldRef>>)

  type Jobs = map<Key, JobRow>

  type Outputs = map<string, map<string, string>>

  datatype Vaulted = Vaulted(files: Files, rows: map<Id, Rows>)

  function RowsOf(v: Vaulted, doc: Id): Rows { if doc in v.rows then v.rows[doc] else map[] }

  /** The fields with a name and an artifact id. */
  function Named(refs: seq<FieldRef>): seq<FieldRef> {
    if refs == [] then []
    else if refs[|refs| - 1].field == "" || refs[|refs| - 1].artifact == "" then Named(refs[..|refs| - 1])
    else Named(refs[..|refs| - 1]) + [refs[|refs| - 1]]
  }

  function JobOutputs(v: Vaulted, j: JobRow): map<string, string> {
    if (j.status.Done? || j.status.Waiting?) && j.outputs.Some?
    then Texts(v.files, RowsOf(v, j.doc), Named(j.outputs.value))
    else map[]
  }

  function StageDataOf(v: Vaulted, rows: seq<JobRow>): Outputs {
    if rows == [] then map[]
    else
      var rest, j := StageDataOf(v, rows[..|rows| - 1]), rows[|rows| - 1];
      if JobOutputs(v, j) == map[] then rest else rest[j.stage := JobOutputs(v, j)]
  }

  // --- What is collected, field by field --------------------------------------------------

  ghost predicate Usable(ref: FieldRef, field: string) { ref.field == field && field != "" && ref.artifact != "" }

  /** The field reads as this text: that of the last artifact under its name that can be read. */
  ghost predicate ReadsAt(v: Vaulted, doc: Id, refs: seq<FieldRef>, field: string, text: string, k: nat) {
    && k < |refs| && Usable(refs[k], field)
    && ReadText(v.files, RowsOf(v, doc), refs[k].artifact) == Some(text)
    && forall m | k < m < |refs| && Usable(refs[m], field) ::
         ReadText(v.files, RowsOf(v, doc), refs[m].artifact) == None
  }

  ghost predicate Reads(v: Vaulted, doc: Id, refs: seq<FieldRef>, field: string, text: string) {
    exists k: nat :: ReadsAt(v, doc, refs, field, text, k)
  }

  /** The outputs are exactly what can be read of a job that is done or waiting and has a run. */
  ghost predicate Gives(v: Vaulted, j: JobRow, outputs: map<string, string>) {
    forall field, text :: field in outputs && outputs[field] == text <==>
      (j.status.Done? || j.status.Waiting?) && j.outputs.Some? && Reads(v, j.doc, j.outputs.value, field, text)
  }

  /** Row i gives the stage its outputs, and no later row of the stage gives any. */
  ghost predicate GivesLast(v: Vaulted, rows: seq<JobRow>, stage: string, outputs: map<string, string>, i: nat) {
    && i < |rows| && rows[i].stage == stage && Gives(v, rows[i], outputs)
    && forall m | i < m < |rows| && rows[m].stage == stage :: Gives(v, rows[m], map[])
  }

  /** A stage has the outputs of its last row that gives any, and is left out if none does. */
  ghost predicate GivenBy(v: Vaulted, rows: seq<JobRow>, r: Outputs) {
    && (forall stage | stage in r :: r[stage] != map[] && exists i: nat :: GivesLast(v, rows, stage, r[stage], i))
    && (forall i | 0 <= i < |rows| && rows[i].stage !in r :: Gives(v, rows[i], map[]))
  }

  lemma ReadsSnoc(v: Vaulted, doc: Id, refs: seq<FieldRef>, last: FieldRef, field: string, text: string)
    ensures var own := ReadText(v.files, RowsOf(v, doc), last.artifact);
      Reads(v, doc, refs + [last], field, text) <==>
        if Usable(last, field) && own.Some? then own == Some(text) else Reads(v, doc, refs, field, text)
  {
    hide ReadText, RowsOf, Usable;
    var all := refs + [last];
    assert all[|refs|] == last && forall m | 0 <= m < |refs| :: all[m] == refs[m];
    if Reads(v, doc, refs, field, text) {
      var k: nat :| ReadsAt(v, doc, refs, field, text, k);
      if !(Usable(last, field) && ReadText(v.files, RowsOf(v, doc), last.artifact).Some?) {
        assert ReadsAt(v, doc, all, field, text, k);
      }
    }
    if Reads(v, doc, all, field, text) {
      var k: nat :| ReadsAt(v, doc, all, field, text, k);
      if k < |refs| { assert ReadsAt(v, doc, refs, field, text, k); }
    }
    if Usable(last, field) && ReadText(v.files, RowsOf(v, doc), last.artifact) == Some(text) {
      assert ReadsAt(v, doc, all, field, text, |refs|);
    }
  }

  lemma {:induction false} TextsAreRead(v: Vaulted, doc: Id, refs: seq<FieldRef>, field: string, text: string)
    ensures var texts := Texts(v.files, RowsOf(v, doc), Named(refs));
      field in texts && texts[field] == text <==> Reads(v, doc, refs, field, text)
  {
    hide ReadText, RowsOf, Texts;
    if refs == [] {
      NoTexts(v, doc);
    } else {
      var front, last := refs[..|refs| - 1], refs[|refs| - 1];
      assert front + [last] == refs;
      TextsAreRead(v, doc, front, field, text);
      ReadsSnoc(v, doc, front, last, field, text);
      hide Reads;
      TextsSnoc(v.files, RowsOf(v, doc), Named(front), last);
    }
  }

  lemma NoTexts(v: Vaulted, doc: Id)
    ensures Texts(v.files, RowsOf(v, doc), []) == map[]
  {
  }

  lemma JobGives(v: Vaulted, j: JobRow)
    ensures Gives(v, j, JobOutputs(v, j))
  {
    hide Texts, Named, Reads;
    forall field, text
      ensures field in JobOutputs(v, j) && JobOutputs(v, j)[field] == text <==>
        (j.status.Done? || j.status.Waiting?) && j.outputs.Some? && Reads(v, j.doc, j.outputs.value, field, text)
    {
      if j.outputs.Some? { TextsAreRead(v, j.doc, j.outputs.value, field, text); }
    }
  }

  lemma {:induction false} StageDataIsGiven(v: Vaulted, rows: seq<JobRow>)
    ensures GivenBy(v, rows, StageDataOf(v, rows))
  {
    hide Gives, JobOutputs, GivenBy;
    if rows == [] {
      NothingGiven(v);
    } else {
      var front, last := rows[..|rows| - 1], rows[|rows| - 1];
      assert front + [last] == rows;
      StageDataIsGiven(v, front);
      JobGives(v, last);
      GivenSnoc(v, front, last, StageDataOf(v, front), JobOutputs(v, last));
    }
  }

  lemma NothingGiven(v: Vaulted)
    ensures GivenBy(v, [], map[])
  {
  }

  lemma GivenSnoc(v: Vaulted, rows: seq<JobRow>, last: JobRow, r: Outputs, outputs: map<string, string>)
    requires GivenBy(v, rows, r) && Gives(v, last, outputs)
    ensures GivenBy(v, rows + [last], if outputs == map[] then r else r[last.stage := outputs])
  {
    hide Gives;
    var all := rows + [last];
    assert all[|rows|] == last && forall m | 0 <= m < |rows| :: all[m] == rows[m];
    var next := if outputs == map[] then r else r[last.stage := outputs];
    forall stage | stage in next
      ensures next[stage] != map[] && exists i: nat :: GivesLast(v, all, stage, next[stage], i)
    {
      if outputs != map[] && stage == last.stage {
        assert GivesLast(v, all, stage, outputs, |rows|);
      } else {
        var i: nat :| GivesLast(v, rows, stage, r[stage], i);
        assert GivesLast(v, all, stage, r[stage], i);
      }
    }
  }

  // --- What the result is, whatever the order of the rows --------------------------------

  function DocJobs(jobs: Jobs, doc: Id): Jobs { map k | k in jobs && jobs[k].doc == doc :: jobs[k] }

  /** The shape invariant of the pipeline: at most one job per document and stage. */
  ghost predicate OnePerStage(jobs: Jobs) {
    forall a, b | a in jobs && b in jobs && jobs[a].doc == jobs[b].doc && jobs[a].stage == jobs[b].stage :: a == b
  }

  /** Some listing of a document's jobs; rows created at the same time come in any order. */
  ghost predicate Lists(jobs: Jobs, rows: seq<JobRow>, doc: Id) {
    forall j :: j in rows <==> j in DocJobs(jobs, doc).Values
  }

  ghost predicate IsStageData(r: Outputs, v: Vaulted, rows: seq<JobRow>) {
    && (forall stage | stage in r :: exists j :: j in rows && j.stage == stage && r[stage] == JobOutputs(v, j) != map[])
    && (forall j | j in rows && JobOutputs(v, j) != map[] :: j.stage in r)
  }

  lemma {:induction false} CollectsStageData(v: Vaulted, rows: seq<JobRow>)
    ensures IsStageData(StageDataOf(v, rows), v, rows)
  {
    hide JobOutputs;
    if rows != [] {
      var front, last := rows[..|rows| - 1], rows[|rows| - 1];
      CollectsStageData(v, front);
      var r := StageDataOf(v, rows);
      forall stage | stage in r
        ensures exists j :: j in rows && j.stage == stage && r[stage] == JobOutputs(v, j) != map[]
      {
        if last.stage == stage && JobOutputs(v, last) != map[] {
          assert last in rows;
        } else {
          var j :| j in front && j.stage == stage && r[stage] == JobOutputs(v, j) != map[];
          assert j in rows;
        }
      }
    }
  }

  lemma SameStageSameRow(jobs: Jobs, rows: seq<JobRow>, doc: Id, a: JobRow, b: JobRow)
    requires OnePerStage(jobs) && Lists(jobs, rows, doc) && a in rows && b in rows && a.stage == b.stage
    ensures a == b
  {
    var mine := DocJobs(jobs, doc);
    assert a in mine.Values && b in mine.Values;
    var k :| k in mine && mine[k] == a;
    var l :| l in mine && mine[l] == b;
  }

  /** With one job per stage any two listings of a document give the same result. */
  lemma ListingsAgree(v: Vaulted, jobs: Jobs, a: seq<JobRow>, b: seq<JobRow>, doc: Id)
    requires OnePerStage(jobs) && Lists(jobs, a, doc) && Lists(jobs, b, doc)
    ensures StageDataOf(v, a) == StageDataOf(v, b)
  {
    hide StageDataOf, JobOutputs, OnePerStage, Lists, IsStageData;
    CollectsStageData(v, a);
    CollectsStageData(v, b);
    SameRows(jobs, a, b, doc);
    SameResult(v, jobs, a, b, doc, StageDataOf(v, a), StageDataOf(v, b));
  }

  lemma SameResult(v: Vaulted, jobs: Jobs, a: seq<JobRow>, b: seq<JobRow>, doc: Id, r: Outputs, s: Outputs)
    requires OnePerStage(jobs) && Lists(jobs, a, doc) && IsStageData(r, v, a) && IsStageData(s, v, b)
    requires forall j :: j in a <==> j in b
    ensures r == s
  {
    hide JobOutputs, OnePerStage, Lists, IsStageData;
    forall stage
      ensures stage in r <==> stage in s
      ensures stage in r && stage in s ==> r[stage] == s[stage]
    {
      if stage in r { RowOfStage(v, r, a, b, s, stage); }
      if stage in s { RowOfStage(v, s, b, a, r, stage); }
      if stage in r && stage in s { SameValue(v, jobs, a, b, doc, r, s, stage); }
    }
  }

  lemma SameValue(v: Vaulted, jobs: Jobs, a: seq<JobRow>, b: seq<JobRow>, doc: Id, r: Outputs, s: Outputs,
                  stage: string)
    requires OnePerStage(jobs) && Lists(jobs, a, doc) && IsStageData(r, v, a) && IsStageData(s, v, b)
    requires stage in r && stage in s && forall j | j in b :: j in a
    ensures r[stage] == s[stage]
  {
    hide OnePerStage, Lists, IsStageData, JobOutputs;
    SameStageSameRow(jobs, a, doc, RowFor(v, r, a, stage), RowFor(v, s, b, stage));
  }

  lemma SameRows(jobs: Jobs, a: seq<JobRow>, b: seq<JobRow>, doc: Id)
    requires Lists(jobs, a, doc) && Lists(jobs, b, doc)
    ensures forall j :: j in a <==> j in b
  {
  }

  ghost function RowFor(v: Vaulted, r: Outputs, rows: seq<JobRow>, stage: string): (j: JobRow)
    requires IsStageData(r, v, rows) && stage in r
    ensures j in rows && j.stage == stage && r[stage] == JobOutputs(v, j) != map[]
  {
    var j :| j in rows && j.stage == stage && r[stage] == JobOutputs(v, j) != map[];
    j
  }

  lemma RowOfStage(v: Vaulted, r: Outputs, a: seq<JobRow>, b: seq<JobRow>, s: Outputs, stage: string)
    requires IsStageData(r, v, a) && IsStageData(s, v, b) && stage in r && forall j | j in a :: j in b
    ensures stage in s
  {
    var j := RowFor(v, r, a, stage);
  }

  // --- The two collectors ----------------------------------------------------------------

  method StageDataFromJobs(v: Vaulted, rows: seq<JobRow>) returns (r: Outputs)
    ensures r == StageDataOf(v, rows) && GivenBy(v, rows, r)
  {
    hide GivenBy;
    StageDataIsGiven(v, rows);
    r := map[];
    for i := 0 to |rows|
      invariant r == StageDataOf(v, rows[..i])
    {
      assert rows[..i + 1][..i] == rows[..i];
      var j := rows[i];
      var outputs := map[];
      if (j.status.Done? || j.status.Waiting?) && j.outputs.Some? {
        outputs := ReadOutputs(v, j.doc, j.outputs.value);
      }
      if outputs != map[] { r := r[j.stage := outputs]; }
    }
    assert rows[..|rows|] == rows;
  }

  method ReadOutputs(v: Vaulted, doc: Id, refs: seq<FieldRef>) returns (outputs: map<string, string>)
    ensures outputs == Texts(v.files, RowsOf(v, doc), Named(refs))
  {
    hide RowsOf, ReadText;
    outputs := map[];
    for i := 0 to |refs|
      invariant outputs == Texts(v.files, RowsOf(v, doc), Named(refs[..i]))
    {
      assert refs[..i + 1][..i] == refs[..i];
      var named := Named(refs[..i]);
      if refs[i].field == "" || refs[i].artifact == "" { continue; }
      assert (named + [refs[i]])[..|named|] == named;
      var text := ReadText(v.files, RowsOf(v, doc), refs[i].artifact);
      if text.None? { continue; }
      outputs := outputs[refs[i].field := text.value];
    }
    assert refs[..|refs|] == refs;
  }

  /** The document filter of the job query; an empty list filters nothing. */
  function Matching(jobs: Jobs, docs: seq<Id>): set<Key> {
    set k | k in jobs && (docs == [] || jobs[k].doc in docs)
  }

  function MatchingAt(tables: seq<Jobs>, docs: seq<Id>): seq<set<Key>> {
    seq(|tables|, i requires 0 <= i < |tables| => Matching(tables[i], docs))
  }

  function OfDoc(rows: seq<JobRow>, doc: Id): seq<JobRow> {
    if rows == [] then []
    else if rows[|rows| - 1].doc == doc then OfDoc(rows[..|rows| - 1], doc) + [rows[|rows| - 1]]
    else OfDoc(rows[..|rows| - 1], doc)
  }

  lemma {:induction false} OfDocHas(rows: seq<JobRow>, doc: Id)
    ensures forall j :: j in OfDoc(rows, doc) <==> j in rows && j.doc == doc
  {
    if rows != [] {
      OfDocHas(rows[..|rows| - 1], doc);
      assert rows == rows[..|rows| - 1] + [rows[|rows| - 1]];
    }
  }

  /** Rows grouped by document as the pages come in. */
  ghost predicate Grouped(byDoc: map<Id, seq<JobRow>>, seen: seq<JobRow>) {
    forall doc :: (if doc in byDoc then byDoc[doc] else []) == OfDoc(seen, doc)
  }

  method AddPage(byDoc: map<Id, seq<JobRow>>, ghost seen: seq<JobRow>, rows: seq<JobRow>)
    returns (grouped: map<Id, seq<JobRow>>)
    requires Grouped(byDoc, seen)
    ensures Grouped(grouped, seen + rows)
  {
    grouped := byDoc;
    assert seen + rows[..0] == seen;
    for i := 0 to |rows|
      invariant Grouped(grouped, seen + rows[..i])
    {
      assert (seen + rows[..i + 1])[..|seen| + i] == seen + rows[..i];
      var was := if rows[i].doc in grouped then grouped[rows[i].doc] else [];
      grouped := grouped[rows[i].doc := was + [rows[i]]];
    }
    assert rows[..|rows|] == rows;
  }

  /** The document's jobs are the same at every call of the walk. */
  ghost predicate Steady(tables: seq<Jobs>, doc: Id) {
    forall i | 0 <= i < |tables| :: DocJobs(tables[i], doc) == DocJobs(tables[0], doc)
  }

  /** `tables` are the job tables at each call. The document's rows seen so far are rows it
      has, and those it has and not seen lie past the cursor. */
  ghost predicate Progress(tables: seq<Jobs>, doc: Id, seen: seq<JobRow>, token: Option<Key>, done: bool)
    requires tables != []
  {
    var mine := DocJobs(tables[0], doc);
    && (forall j | j in seen && j.doc == doc :: j in mine.Values)
    && (forall k | k in mine :: mine[k] in seen || (!done && (token.None? || Before(true, token.value, k))))
  }

  function RowsAt(jobs: Jobs, keys: seq<Key>): (rows: seq<JobRow>)
    requires forall k | k in keys :: k in jobs
    ensures |rows| == |keys| && forall i | 0 <= i < |rows| :: rows[i] == jobs[keys[i]]
  {
    seq(|keys|, i requires 0 <= i < |keys| => assert keys[i] in keys; jobs[keys[i]])
  }

  lemma PageProgress(tables: seq<Jobs>, i: nat, docs: seq<Id>, doc: Id, seen: seq<JobRow>, token: Option<Key>,
                     limit: nat)
    requires i < |tables| && limit > 0 && doc in docs && Steady(tables, doc)
      && Progress(tables, doc, seen, token, false)
    ensures var page := PageOf(true, Matching(tables[i], docs), token, limit);
      && (forall k | k in page.rows :: k in tables[i])
      && Progress(tables, doc, seen + RowsAt(tables[i], page.rows), page.next, page.next.None?)
  {
    hide PageOf, Before;
    var keys := Matching(tables[i], docs);
    var page := PageOf(true, keys, token, limit);
    PageSplits(true, keys, token, limit);
    var mine, rows := DocJobs(tables[0], doc), RowsAt(tables[i], page.rows);
    assert DocJobs(tables[i], doc) == mine;
    forall j | j in rows && j.doc == doc ensures j in mine.Values {
      var x :| 0 <= x < |rows| && rows[x] == j;
      assert page.rows[x] in page.rows && page.rows[x] in DocJobs(tables[i], doc);
      assert mine[page.rows[x]] == j;
    }
    forall k | k in mine
      ensures mine[k] in seen + rows || (page.next.Some? && Before(true, page.next.value, k))
    {
      assert k in DocJobs(tables[i], doc) && k in keys;
      if k in page.rows {
        var x :| 0 <= x < |page.rows| && page.rows[x] == k;
        assert rows[x] == mine[k];
      }
    }
  }

  lemma StartProgress(tables: seq<Jobs>, doc: Id)
    requires tables != []
    ensures Progress(tables, doc, [], None, false)
  {
  }

  lemma PageInTable(jobs: Jobs, docs: seq<Id>, token: Option<Key>, limit: nat)
    requires limit > 0
    ensures forall k | k in PageOf(true, Matching(jobs, docs), token, limit).rows :: k in jobs
  {
    hide PageOf;
    PageSplits(true, Matching(jobs, docs), token, limit);
  }

  /** The paging loop; it fails if a call does, which is when the tables run out. */
  method GroupPages(tables: seq<Jobs>, docs: seq<Id>, pageSize: nat) returns (byDoc: Option<map<Id, seq<JobRow>>>)
    requires pageSize > 0 && docs != []
    ensures byDoc.Some? <==> Completes(true, MatchingAt(tables, docs), None, pageSize)
    ensures byDoc.Some? ==> tables != [] && forall doc | doc in docs && Steady(tables, doc) ::
      Lists(tables[0], if doc in byDoc.value then byDoc.value[doc] else [], doc)
  {
    hide PageOf, Grouped, Steady, Progress, Matching;
    var grouped: map<Id, seq<JobRow>>, token: Option<Key> := map[], None;
    ghost var seen: seq<JobRow>, all := [], MatchingAt(tables, docs);
    assert Grouped(grouped, seen) by { NothingGrouped(); }
    assert all[0..] == all;
    forall doc | doc in docs && tables != [] { StartProgress(tables, doc); }
    for i := 0 to |tables|
      invariant Completes(true, all[i..], token, pageSize) == Completes(true, all, None, pageSize)
      invariant Grouped(grouped, seen)
      invariant forall doc | tables != [] && doc in docs && Steady(tables, doc) ::
        Progress(tables, doc, seen, token, false)
    {
      var page := PageOf(true, Matching(tables[i], docs), token, pageSize);
      assert all[i..][0] == Matching(tables[i], docs) && all[i..][1..] == all[i + 1..];
      PageInTable(tables[i], docs, token, pageSize);
      forall doc | doc in docs && Steady(tables, doc) { PageProgress(tables, i, docs, doc, seen, token, pageSize); }
      grouped := AddPage(grouped, seen, RowsAt(tables[i], page.rows));
      seen := seen + RowsAt(tables[i], page.rows);
      if page.next.None? {
        forall doc | doc in docs && Steady(tables, doc)
          ensures Lists(tables[0], if doc in grouped then grouped[doc] else [], doc)
        {
          AllGrouped(tables, doc, grouped, seen, page.next);
        }
        return Some(grouped);
      }
      token := page.next;
    }
    assert all[|tables|..] == [];
    byDoc := None;
  }

  lemma NothingGrouped()
    ensures Grouped(map[], [])
  {
  }

  lemma AllGrouped(tables: seq<Jobs>, doc: Id, grouped: map<Id, seq<JobRow>>, seen: seq<JobRow>, token: Option<Key>)
    requires tables != [] && Grouped(grouped, seen) && Progress(tables, doc, seen, token, true)
    ensures Lists(tables[0], if doc in grouped then grouped[doc] else [], doc)
  {
    OfDocHas(seen, doc);
    var mine := DocJobs(tables[0], doc);
    forall j ensures j in OfDoc(seen, doc) <==> j in mine.Values {
      if j in mine.Values { var k :| k in mine && mine[k] == j; }
    }
  }

  /** Each requested document whose jobs do not change while the pages are read gets exactly
      what the single collector returns for it, whatever happens to the other documents and
      wherever the pages break; and no other document is returned. It fails only if the walk
      does not complete within the calls that succeed. */
  method CollectStageDataBatch(v: Vaulted, tables: seq<Jobs>, docs: seq<Id>, pageSize: nat)
    returns (out: Option<map<Id, Outputs>>)
    requires pageSize > 0
    ensures out.Some? <==> docs == [] || Completes(true, MatchingAt(tables, docs), None, pageSize)
    ensures out.Some? ==> forall doc :: doc in out.value <==> doc in docs
    ensures out.Some? ==> forall doc, listing |
      doc in docs && Steady(tables, doc) && OnePerStage(tables[0]) && Lists(tables[0], listing, doc) ::
      out.value[doc] == StageDataOf(v, listing) && GivenBy(v, listing, out.value[doc])
  {
    hide GivenBy, StageDataOf, OnePerStage, Steady, Lists, Completes;
    if docs == [] { return Some(map[]); }
    var byDoc := GroupPages(tables, docs, pageSize);
    if byDoc.None? { return None; }
    var all: map<Id, Outputs> := map[];
    for i := 0 to |docs|
      invariant forall doc :: doc in all <==> doc in docs[..i]
      invariant forall doc, listing |
        doc in docs[..i] && Steady(tables, doc) && OnePerStage(tables[0]) && Lists(tables[0], listing, doc) ::
        all[doc] == StageDataOf(v, listing) && GivenBy(v, listing, all[doc])
    {
      var doc := docs[i];
      var rows := if doc in byDoc.value then byDoc.value[doc] else [];
      var data := StageDataFromJobs(v, rows);
      forall listing | Steady(tables, doc) && OnePerStage(tables[0]) && Lists(tables[0], listing, doc)
        ensures data == StageDataOf(v, listing) && GivenBy(v, listing, data)
      {
        StageDataIsGiven(v, listing);
        ListingsAgree(v, tables[0], rows, listing, doc);
      }
      all := all[doc := data];
      assert docs[..i + 1] == docs[..i] + [doc];
    }
    assert docs[..|docs|] == docs;
    out := Some(all);
  }
}
