/** The files behind a run's inputs and outputs: where they live, what a new run or an edit
    changes, and that reading them gives the texts the pipeline model works with. */
module RunFiles {
  import opened Wrappers

  type Id = string

  /** A stage input or output before it is written. */
  datatype Draft = Draft(field: string, text: string, ext: string)

  /** An artifact row: written by a run, into the run's directory or, in the old layout, into
      a directory of its own id; or uploaded by a user, always into one of its own id. */
  datatype Artifact =
    | OfRun(job: Id, run: Id, name: string)
    | OldOutput(job: Id, run: Id, filename: string)
    | Upload(filename: string)

  datatype FieldRef = FieldRef(field: string, artifact: Id)

  type Files = map<string, string>
  type Rows = map<Id, Artifact>

  // --- Where files live ------------------------------------------------------------------

  function Under(dir: string, rest: string): string { dir + "/" + rest }

  function FieldName(d: Draft): string { if d.field == "" then "_unnamed" else d.field }

  function FileName(d: Draft): string { FieldName(d) + "." + (if d.ext == "" then "md" else d.ext) }

  function Location(id: Id, a: Artifact): string {
    match a
    case OfRun(job, run, name) => Under("runs", Under(job, Under(run, name)))
    case OldOutput(_, _, filename) => Under("artifacts", Under(id, filename))
    case Upload(filename) => Under("artifacts", Under(id, filename))
  }

  /** The path of a file, written out. */
  lemma LocationText(id: Id, a: Artifact)
    ensures a.OfRun? ==> Location(id, a) == "runs/" + a.job + "/" + a.run + "/" + a.name
    ensures !a.OfRun? ==> Location(id, a) == "artifacts/" + id + "/" + a.filename
  {
    if a.OfRun? {
      assert a.job + "/" + a.run + "/" + a.name == Under(a.job, Under(a.run, a.name));
      assert "runs" + "/" == "runs/";
    } else {
      assert "artifacts" + "/" == "artifacts/";
    }
  }

  /** Generated ids contain no slash. */
  predicate Plain(id: Id) { '/' !in id }

  predicate PlainRow(id: Id, a: Artifact) {
    Plain(id) && (!a.Upload? ==> Plain(a.job) && Plain(a.run))
  }

  lemma FirstSlash(dir: string, rest: string)
    requires Plain(dir)
    ensures Under(dir, rest)[|dir|] == '/'
    ensures forall i | 0 <= i < |dir| :: Under(dir, rest)[i] != '/'
    ensures Under(dir, rest)[..|dir|] == dir && Under(dir, rest)[|dir| + 1..] == rest
  {
  }

  lemma UnderIsInjective(a: string, b: string, x: string, y: string)
    requires Plain(a) && Plain(b) && Under(a, x) == Under(b, y)
    ensures a == b && x == y
  {
    FirstSlash(a, x);
    FirstSlash(b, y);
  }

  /** Two artifacts share a file only if they have one name within one run, or are one upload. */
  lemma SharedLocation(id1: Id, a1: Artifact, id2: Id, a2: Artifact)
    requires PlainRow(id1, a1) && PlainRow(id2, a2)
    ensures Location(id1, a1) == Location(id2, a2) <==> SameFile(id1, a1, id2, a2)
  {
    if Location(id1, a1) == Location(id2, a2) {
      var (top1, rest1) := Split(id1, a1);
      var (top2, rest2) := Split(id2, a2);
      UnderIsInjective(top1, top2, rest1, rest2);
      match a1
      case OfRun(job, run, name) =>
        assert top1 == "runs" && top2 == top1 && a2.OfRun?;
        UnderIsInjective(job, a2.job, Under(run, name), Under(a2.run, a2.name));
        UnderIsInjective(run, a2.run, name, a2.name);
      case _ =>
        assert top1 == "artifacts" && top2 == top1 && !a2.OfRun?;
        UnderIsInjective(id1, id2, a1.filename, a2.filename);
    }
  }

  function Split(id: Id, a: Artifact): (r: (string, string))
    ensures Location(id, a) == Under(r.0, r.1) && Plain(r.0)
    ensures r.0 == if a.OfRun? then "runs" else "artifacts"
  {
    match a
    case OfRun(job, run, name) => ("runs", Under(job, Under(run, name)))
    case OldOutput(_, _, filename) => ("artifacts", Under(id, filename))
    case Upload(filename) => ("artifacts", Under(id, filename))
  }

  // --- Writing a run ---------------------------------------------------------------------

  function RowOf(job: Id, run: Id, d: Draft): Artifact { OfRun(job, run, FileName(d)) }

  function PathOf(job: Id, run: Id, d: Draft): string { Location("", RowOf(job, run, d)) }

  /** Files after the drafts were saved in order. */
  function Written(files: Files, job: Id, run: Id, drafts: seq<Draft>): Files {
    if drafts == [] then files
    else
      var last := drafts[|drafts| - 1];
      Written(files, job, run, drafts[..|drafts| - 1])[PathOf(job, run, last) := last.text]
  }

  function Inserted(rows: Rows, job: Id, run: Id, drafts: seq<Draft>, ids: seq<Id>): Rows
    requires |drafts| == |ids|
  {
    if drafts == [] then rows
    else
      var last := |drafts| - 1;
      Inserted(rows, job, run, drafts[..last], ids[..last])[ids[last] := RowOf(job, run, drafts[last])]
  }

  function Refs(drafts: seq<Draft>, ids: seq<Id>): (r: seq<FieldRef>)
    requires |drafts| == |ids|
    ensures |r| == |drafts|
    ensures forall k | 0 <= k < |r| :: r[k] == FieldRef(FieldName(drafts[k]), ids[k])
  {
    if drafts == [] then []
    else
      var last := |drafts| - 1;
      Refs(drafts[..last], ids[..last]) + [FieldRef(FieldName(drafts[last]), ids[last])]
  }

  ghost predicate FreshIds(rows: Rows, ids: seq<Id>) {
    && (forall k | 0 <= k < |ids| :: ids[k] !in rows && Plain(ids[k]))
    && (forall j, k | 0 <= j < k < |ids| :: ids[j] != ids[k])
  }

  ghost predicate FreshRun(rows: Rows, job: Id, run: Id) {
    Plain(job) && Plain(run) && forall id | id in rows && rows[id].OfRun? :: (rows[id].job, rows[id].run) != (job, run)
  }

  ghost predicate PlainRows(rows: Rows) { forall id | id in rows :: PlainRow(id, rows[id]) }

  /** A draft's field and file, written out. */
  ghost predicate Names(d: Draft, field: string, name: string) {
    && (d.field != "" ==> field == d.field) && (d.field == "" ==> field == "_unnamed")
    && (d.ext != "" ==> name == field + "." + d.ext) && (d.ext == "" ==> name == field + ".md")
  }

  lemma DraftNames(d: Draft)
    ensures Names(d, FieldName(d), FileName(d))
    ensures forall field, name | Names(d, field, name) :: field == FieldName(d) && name == FileName(d)
  {
  }

  /** The draft's file in the directory of the run. */
  ghost predicate FileOf(d: Draft, job: Id, run: Id, path: string) {
    exists field, name :: Names(d, field, name) && path == "runs/" + job + "/" + run + "/" + name
  }

  lemma PathIsFileOf(d: Draft, job: Id, run: Id, path: string)
    ensures FileOf(d, job, run, path) <==> path == PathOf(job, run, d)
  {
    hide Names;
    DraftNames(d);
    LocationText("", RowOf(job, run, d));
    hide Location, FileName, FieldName;
    if path == PathOf(job, run, d) {
      assert Names(d, FieldName(d), FileName(d)) && path == "runs/" + job + "/" + run + "/" + FileName(d);
    }
  }

  /** The last of the drafts with this file. */
  ghost predicate LastAtPath(drafts: seq<Draft>, job: Id, run: Id, path: string, k: nat) {
    k < |drafts| && FileOf(drafts[k], job, run, path)
    && forall j | k < j < |drafts| :: !FileOf(drafts[j], job, run, path)
  }

  /** Each file of the drafts holds the last text written to it, and no other file changed. */
  ghost predicate FilesSaved(was: Files, now: Files, job: Id, run: Id, drafts: seq<Draft>) {
    && (forall k: nat, path | LastAtPath(drafts, job, run, path, k) :: path in now && now[path] == drafts[k].text)
    && (forall path | (forall k | 0 <= k < |drafts| :: !FileOf(drafts[k], job, run, path)) ::
          && (path in now <==> path in was) && (path in was ==> now[path] == was[path]))
  }

  /** The row of the draft: of this job and run, under its file name. */
  ghost predicate RowFor(a: Artifact, job: Id, run: Id, d: Draft) {
    a.OfRun? && a.job == job && a.run == run && exists field :: Names(d, field, a.name)
  }

  ghost predicate LastAtId(ids: seq<Id>, k: nat) { k < |ids| && forall j | k < j < |ids| :: ids[j] != ids[k] }

  /** Each id got its draft's row, the last one if an id repeats, and no other row changed. */
  ghost predicate RowsSaved(was: Rows, now: Rows, job: Id, run: Id, drafts: seq<Draft>, ids: seq<Id>)
    requires |drafts| == |ids|
  {
    && (forall k: nat | LastAtId(ids, k) :: ids[k] in now && RowFor(now[ids[k]], job, run, drafts[k]))
    && (forall id | id !in ids :: (id in now <==> id in was) && (id in was ==> now[id] == was[id]))
  }

  ghost predicate RefsTo(refs: seq<FieldRef>, drafts: seq<Draft>, ids: seq<Id>) {
    |refs| == |drafts| == |ids|
    && forall k | 0 <= k < |refs| :: refs[k].artifact == ids[k] && exists name :: Names(drafts[k], refs[k].field, name)
  }

  lemma RefsAreTo(drafts: seq<Draft>, ids: seq<Id>)
    requires |drafts| == |ids|
    ensures RefsTo(Refs(drafts, ids), drafts, ids)
  {
    hide Names;
    forall k | 0 <= k < |drafts| { DraftNames(drafts[k]); }
  }

  lemma LastBefore(drafts: seq<Draft>, last: Draft, job: Id, run: Id, path: string, k: nat)
    requires LastAtPath(drafts + [last], job, run, path, k)
    ensures if k == |drafts| then FileOf(last, job, run, path)
            else LastAtPath(drafts, job, run, path, k) && !FileOf(last, job, run, path)
  {
    hide FileOf;
    var all := drafts + [last];
    assert all[|drafts|] == last && forall j | 0 <= j < |drafts| :: all[j] == drafts[j];
  }

  lemma {:induction false} WrittenSaves(files: Files, job: Id, run: Id, drafts: seq<Draft>)
    ensures FilesSaved(files, Written(files, job, run, drafts), job, run, drafts)
  {
    hide FileOf, LastAtPath, PathOf;
    if drafts == [] {
      assert forall path, k: nat :: !LastAtPath([], job, run, path, k) by { NoLast(job, run); }
    } else {
      var front, last := drafts[..|drafts| - 1], drafts[|drafts| - 1];
      assert front + [last] == drafts;
      WrittenSaves(files, job, run, front);
      var now := Written(files, job, run, drafts);
      forall k: nat, path | LastAtPath(drafts, job, run, path, k)
        ensures k < |drafts| && path in now && now[path] == drafts[k].text
      {
        LastBefore(front, last, job, run, path, k);
        PathIsFileOf(last, job, run, path);
        if k < |front| { assert LastAtPath(front, job, run, path, k); }
        LastIsDraft(drafts, job, run, path, k);
      }
      forall path | (forall k | 0 <= k < |drafts| :: !FileOf(drafts[k], job, run, path))
        ensures (path in now <==> path in files) && (path in files ==> now[path] == files[path])
      {
        PathIsFileOf(last, job, run, path);
        assert forall k | 0 <= k < |front| :: !FileOf(front[k], job, run, path) by {
          assert forall k | 0 <= k < |front| :: front[k] == drafts[k];
        }
      }
    }
  }

  lemma NoLast(job: Id, run: Id)
    ensures forall path, k: nat :: !LastAtPath([], job, run, path, k)
  {
  }

  lemma LastIsDraft(drafts: seq<Draft>, job: Id, run: Id, path: string, k: nat)
    requires LastAtPath(drafts, job, run, path, k)
    ensures k < |drafts|
  {
  }

  lemma {:induction false} InsertedSaves(rows: Rows, job: Id, run: Id, drafts: seq<Draft>, ids: seq<Id>)
    requires |drafts| == |ids|
    ensures RowsSaved(rows, Inserted(rows, job, run, drafts, ids), job, run, drafts, ids)
  {
    if drafts != [] {
      hide Names, FileName, FieldName, RowsSaved;
      var n := |drafts| - 1;
      InsertedSaves(rows, job, run, drafts[..n], ids[..n]);
      assert drafts[..n] + [drafts[n]] == drafts && ids[..n] + [ids[n]] == ids;
      var now := Inserted(rows, job, run, drafts[..n], ids[..n]);
      SavedSnoc(rows, now, job, run, drafts[..n], ids[..n], drafts[n], ids[n]);
    }
  }

  lemma SavedSnoc(was: Rows, now: Rows, job: Id, run: Id, drafts: seq<Draft>, ids: seq<Id>, d: Draft, id: Id)
    requires |drafts| == |ids| && RowsSaved(was, now, job, run, drafts, ids)
    ensures RowsSaved(was, now[id := RowOf(job, run, d)], job, run, drafts + [d], ids + [id])
  {
    hide Names, FileName, FieldName;
    DraftNames(d);
    assert RowFor(RowOf(job, run, d), job, run, d);
    hide RowFor;
    var all, next := ids + [id], now[id := RowOf(job, run, d)];
    assert all[|ids|] == id && forall j | 0 <= j < |ids| :: all[j] == ids[j];
    forall k: nat | LastAtId(all, k) ensures all[k] in next && RowFor(next[all[k]], job, run, (drafts + [d])[k]) {
      if k < |ids| { assert LastAtId(ids, k) && all[|ids|] != all[k]; }
    }
  }

  class Vault {
    var files: Files
    var rows: Rows

    method SaveAt(path: string, text: string)
      modifies this`files
      ensures files == old(files)[path := text]
    {
      files := files[path := text];
    }

    method Insert(id: Id, a: Artifact)
      modifies this`rows
      ensures rows == old(rows)[id := a]
    {
      rows := rows[id := a];
    }

    /** `ids` are the artifact ids the generator hands out during the loop. Each draft takes
        two calls, the file's and the row's; `calls` of them succeed before one fails. */
    method PersistDrafts(job: Id, run: Id, drafts: seq<Draft>, ids: seq<Id>, calls: nat)
      returns (out: Option<seq<FieldRef>>)
      requires |drafts| == |ids|
      modifies this
      ensures out == if calls >= 2 * |drafts| then Some(Refs(drafts, ids)) else None
      ensures files == Written(old(files), job, run, drafts[..FilesDone(calls, |drafts|)])
      ensures var k := RowsDone(calls, |drafts|); rows == Inserted(old(rows), job, run, drafts[..k], ids[..k])
      ensures out.Some? <==> calls >= 2 * |drafts|
      ensures out.Some? ==> RefsTo(out.value, drafts, ids)
      ensures FilesSaved(old(files), files, job, run, drafts[..FilesDone(calls, |drafts|)])
      ensures var k := RowsDone(calls, |drafts|); RowsSaved(old(rows), rows, job, run, drafts[..k], ids[..k])
    {
      hide Written, Inserted, Refs, FilesDone, RowsDone, RefsTo, FilesSaved, RowsSaved;
      WrittenSaves(files, job, run, drafts[..FilesDone(calls, |drafts|)]);
      InsertedSaves(rows, job, run, drafts[..RowsDone(calls, |drafts|)], ids[..RowsDone(calls, |drafts|)]);
      RefsAreTo(drafts, ids);
      var refs: seq<FieldRef> := [];
      NothingWritten(files, rows, job, run, drafts, ids);
      for k := 0 to |drafts|
        invariant 2 * k <= calls
        invariant files == Written(old(files), job, run, drafts[..k])
        invariant rows == Inserted(old(rows), job, run, drafts[..k], ids[..k])
        invariant refs == Refs(drafts[..k], ids[..k])
      {
        var d := drafts[k];
        var field := if d.field == "" then "_unnamed" else d.field;
        var ext := if d.ext == "" then "md" else d.ext;
        var row := OfRun(job, run, field + "." + ext);
        DraftStep(old(files), old(rows), job, run, drafts, ids, k);
        CallsDone(calls, k, |drafts|);
        if calls == 2 * k { return None; }
        SaveAt(Location(ids[k], row), d.text);
        if calls == 2 * k + 1 { return None; }
        Insert(ids[k], row);
        refs := refs + [FieldRef(field, ids[k])];
      }
      CallsDone(calls, |drafts|, |drafts|);
      assert drafts[..|drafts|] == drafts && ids[..|ids|] == ids;
      out := Some(refs);
    }

    /** Inputs first, then outputs, under one run id: one list of drafts, however far it gets. */
    method PersistRun(job: Id, run: Id, inputs: seq<Draft>, outputs: seq<Draft>, inIds: seq<Id>, outIds: seq<Id>,
                      calls: nat)
      returns (refs: Option<(seq<FieldRef>, seq<FieldRef>)>)
      requires |inputs| == |inIds| && |outputs| == |outIds|
      modifies this
      ensures refs == if calls >= 2 * |inputs + outputs| then Some((Refs(inputs, inIds), Refs(outputs, outIds)))
        else None
      ensures files == Written(old(files), job, run, (inputs + outputs)[..FilesDone(calls, |inputs + outputs|)])
      ensures var k := RowsDone(calls, |inputs + outputs|);
        rows == Inserted(old(rows), job, run, (inputs + outputs)[..k], (inIds + outIds)[..k])
      ensures refs.Some? <==> calls >= 2 * |inputs + outputs|
      ensures refs.Some? ==> RefsTo(refs.value.0, inputs, inIds) && RefsTo(refs.value.1, outputs, outIds)
      ensures FilesSaved(old(files), files, job, run, (inputs + outputs)[..FilesDone(calls, |inputs + outputs|)])
      ensures var k := RowsDone(calls, |inputs + outputs|);
        RowsSaved(old(rows), rows, job, run, (inputs + outputs)[..k], (inIds + outIds)[..k])
    {
      hide Written, Inserted, Refs, RefsTo, FilesSaved, RowsSaved;
      WrittenSaves(files, job, run, (inputs + outputs)[..FilesDone(calls, |inputs + outputs|)]);
      InsertedSaves(rows, job, run, (inputs + outputs)[..RowsDone(calls, |inputs + outputs|)],
                    (inIds + outIds)[..RowsDone(calls, |inputs + outputs|)]);
      ghost var files0, rows0, all, ids := files, rows, inputs + outputs, inIds + outIds;
      var ins := PersistDrafts(job, run, inputs, inIds, calls);
      if ins.None? {
        assert all[..FilesDone(calls, |all|)] == inputs[..FilesDone(calls, |inputs|)];
        assert all[..RowsDone(calls, |all|)] == inputs[..RowsDone(calls, |inputs|)];
        assert ids[..RowsDone(calls, |all|)] == inIds[..RowsDone(calls, |inputs|)];
        return None;
      }
      assert inputs[..|inputs|] == inputs && inIds[..|inIds|] == inIds;
      var left := calls - 2 * |inputs|;
      var outs := PersistDrafts(job, run, outputs, outIds, left);
      ghost var f, k := FilesDone(left, |outputs|), RowsDone(left, |outputs|);
      WrittenJoins(files0, job, run, inputs, outputs[..f]);
      InsertedJoins(rows0, job, run, inputs, outputs[..k], inIds, outIds[..k]);
      assert all[..FilesDone(calls, |all|)] == inputs + outputs[..f];
      assert all[..RowsDone(calls, |all|)] == inputs + outputs[..k];
      assert ids[..RowsDone(calls, |all|)] == inIds + outIds[..k];
      if outs.None? { return None; }
      refs := Some((ins.value, outs.value));
    }

    /** The write an edit makes: SaveAt on the row's path, or Save in the upload layout. It
        fails for a missing row; else the artifact, and what shares its file, reads as the new
        content, and every other artifact as before. */
    method Overwrite(id: Id, content: string) returns (found: bool)
      requires PlainRows(rows)
      modifies this`files
      ensures found <==> id in rows
      ensures !found ==> files == old(files)
      ensures found ==> ReadText(files, rows, id) == Some(content)
      ensures found ==> forall other | other in rows ::
        var was := ReadText(old(files), rows, other);
        ReadText(files, rows, other) == if SameFile(id, rows[id], other, rows[other]) then Some(content) else was
    {
      if id !in rows { return false; }
      ghost var was := files;
      SaveAt(Location(id, rows[id]), content);
      forall other | other in rows {
        EditSeenIff(was, rows, id, other, content);
      }
      found := true;
    }
  }

  lemma NothingWritten(files: Files, rows: Rows, job: Id, run: Id, drafts: seq<Draft>, ids: seq<Id>)
    requires |drafts| == |ids|
    ensures Written(files, job, run, drafts[..0]) == files && Inserted(rows, job, run, drafts[..0], ids[..0]) == rows
    ensures Refs(drafts[..0], ids[..0]) == []
  {
  }

  lemma DraftStep(files: Files, rows: Rows, job: Id, run: Id, drafts: seq<Draft>, ids: seq<Id>, k: nat)
    requires |drafts| == |ids| && k < |drafts|
    ensures var d, next := drafts[k], drafts[..k + 1];
      && Written(files, job, run, next) == Written(files, job, run, drafts[..k])[PathOf(job, run, d) := d.text]
      && Inserted(rows, job, run, next, ids[..k + 1])
         == Inserted(rows, job, run, drafts[..k], ids[..k])[ids[k] := RowOf(job, run, d)]
      && Refs(next, ids[..k + 1]) == Refs(drafts[..k], ids[..k]) + [FieldRef(FieldName(d), ids[k])]
  {
    assert drafts[..k + 1][..k] == drafts[..k] && ids[..k + 1][..k] == ids[..k];
  }

  /** How many files, and rows, are written after so many successful calls. */
  function FilesDone(calls: nat, n: nat): (k: nat)
    ensures k <= n
  {
    if (calls + 1) / 2 < n then (calls + 1) / 2 else n
  }

  function RowsDone(calls: nat, n: nat): (k: nat)
    ensures k <= n
  {
    if calls / 2 < n then calls / 2 else n
  }

  lemma CallsDone(calls: nat, k: nat, n: nat)
    requires 2 * k <= calls && k <= n
    ensures calls == 2 * k || k == n ==> FilesDone(calls, n) == k && RowsDone(calls, n) == k
    ensures calls == 2 * k + 1 && k < n ==> FilesDone(calls, n) == k + 1 && RowsDone(calls, n) == k
  {
  }

  /** One name within one run, or in the layout by artifact id one row. */
  predicate SameFile(id1: Id, a1: Artifact, id2: Id, a2: Artifact) {
    if a1.OfRun? || a2.OfRun? then a1 == a2 else id1 == id2 && a1.filename == a2.filename
  }

  // --- Reading ---------------------------------------------------------------------------

  /** readArtifactText of a row, None if the row or its file is missing. */
  function ReadText(files: Files, rows: Rows, id: Id): Option<string> {
    if id in rows && Location(id, rows[id]) in files then Some(files[Location(id, rows[id])]) else None
  }

  /** A text reads exactly if its row is there and the row's path holds it. */
  lemma ReadTextIff(files: Files, rows: Rows, id: Id, text: string)
    ensures id !in rows ==> ReadText(files, rows, id) == None
    ensures id in rows ==>
      var path := if rows[id].OfRun? then "runs/" + rows[id].job + "/" + rows[id].run + "/" + rows[id].name
                  else "artifacts/" + id + "/" + rows[id].filename;
      ReadText(files, rows, id) == Some(text) <==> path in files && files[path] == text
  {
    if id in rows { LocationText(id, rows[id]); }
  }

  /** The outputs map stageDataFromJobs builds from a run's fields. */
  function Texts(files: Files, rows: Rows, refs: seq<FieldRef>): map<string, string> {
    if refs == [] then map[]
    else
      var rest := Texts(files, rows, refs[..|refs| - 1]);
      var last := refs[|refs| - 1];
      var text := ReadText(files, rows, last.artifact);
      if text.None? then rest else rest[last.field := text.value]
  }

  lemma TextsSnoc(files: Files, rows: Rows, refs: seq<FieldRef>, last: FieldRef)
    ensures Texts(files, rows, refs + [last]) ==
      var text := ReadText(files, rows, last.artifact);
      if text.None? then Texts(files, rows, refs) else Texts(files, rows, refs)[last.field := text.value]
  {
    hide ReadText;
    assert (refs + [last])[..|refs|] == refs;
  }

  function DraftTexts(drafts: seq<Draft>): map<string, string> {
    if drafts == [] then map[]
    else DraftTexts(drafts[..|drafts| - 1])[FieldName(drafts[|drafts| - 1]) := drafts[|drafts| - 1].text]
  }

  // --- What a new run leaves alone -------------------------------------------------------

  lemma {:induction false} WrittenElsewhere(files: Files, job: Id, run: Id, drafts: seq<Draft>, path: string)
    requires forall k | 0 <= k < |drafts| :: PathOf(job, run, drafts[k]) != path
    ensures path in Written(files, job, run, drafts) <==> path in files
    ensures path in files ==> Written(files, job, run, drafts)[path] == files[path]
  {
    if drafts != [] {
      WrittenElsewhere(files, job, run, drafts[..|drafts| - 1], path);
    }
  }

  lemma {:induction false} InsertedKeeps(rows: Rows, job: Id, run: Id, drafts: seq<Draft>, ids: seq<Id>, id: Id)
    requires |drafts| == |ids| && id !in ids
    ensures id in Inserted(rows, job, run, drafts, ids) <==> id in rows
    ensures id in rows ==> Inserted(rows, job, run, drafts, ids)[id] == rows[id]
  {
    if drafts != [] {
      InsertedKeeps(rows, job, run, drafts[..|drafts| - 1], ids[..|ids| - 1], id);
    }
  }

  /** A run with a fresh id changes no text that was there before, edited or not, however
      many of its files and rows get written. */
  lemma NewRunKeepsTexts(files: Files, rows: Rows, job: Id, run: Id, drafts: seq<Draft>, ids: seq<Id>, id: Id,
                         f: nat, k: nat)
    requires |drafts| == |ids| && FreshIds(rows, ids) && FreshRun(rows, job, run) && PlainRows(rows) && id in rows
    requires f <= |drafts| && k <= |drafts|
    ensures ReadText(Written(files, job, run, drafts[..f]), Inserted(rows, job, run, drafts[..k], ids[..k]), id)
      == ReadText(files, rows, id)
  {
    InsertedKeeps(rows, job, run, drafts[..k], ids[..k], id);
    var path := Location(id, rows[id]);
    forall j | 0 <= j < f ensures PathOf(job, run, drafts[..f][j]) != path {
      SharedLocation("", RowOf(job, run, drafts[j]), id, rows[id]);
    }
    WrittenElsewhere(files, job, run, drafts[..f], path);
  }

  // --- What a new run reads back ---------------------------------------------------------

  lemma {:induction false} InsertedHas(rows: Rows, job: Id, run: Id, drafts: seq<Draft>, ids: seq<Id>, k: nat)
    requires |drafts| == |ids| && k < |ids| && forall i, j | 0 <= i < j < |ids| :: ids[i] != ids[j]
    ensures ids[k] in Inserted(rows, job, run, drafts, ids)
    ensures Inserted(rows, job, run, drafts, ids)[ids[k]] == RowOf(job, run, drafts[k])
  {
    if k < |ids| - 1 {
      InsertedHas(rows, job, run, drafts[..|drafts| - 1], ids[..|ids| - 1], k);
    }
  }

  /** The last draft of a run with a given file name decides what the file holds. */
  lemma {:induction false} LastDraftWins(files: Files, job: Id, run: Id, drafts: seq<Draft>, k: nat)
    requires Plain(job) && Plain(run) && k < |drafts|
    requires forall j | k < j < |drafts| :: FileName(drafts[j]) != FileName(drafts[k])
    ensures PathOf(job, run, drafts[k]) in Written(files, job, run, drafts)
    ensures Written(files, job, run, drafts)[PathOf(job, run, drafts[k])] == drafts[k].text
  {
    hide PathOf, FileName;
    var last := |drafts| - 1;
    if k < last {
      OtherName(job, run, drafts[k], drafts[last]);
      LastDraftWins(files, job, run, drafts[..last], k);
    }
  }

  lemma OtherName(job: Id, run: Id, d: Draft, e: Draft)
    requires Plain(job) && Plain(run) && FileName(d) != FileName(e)
    ensures PathOf(job, run, d) != PathOf(job, run, e)
  {
    hide FileName, Location;
    SharedLocation("", RowOf(job, run, d), "", RowOf(job, run, e));
  }

  /** The last draft of a file name. */
  function LastNamed(drafts: seq<Draft>, name: string): (j: nat)
    requires exists k :: 0 <= k < |drafts| && FileName(drafts[k]) == name
    ensures j < |drafts| && FileName(drafts[j]) == name
    ensures forall i | j < i < |drafts| :: FileName(drafts[i]) != name
  {
    if FileName(drafts[|drafts| - 1]) == name then |drafts| - 1 else LastNamed(drafts[..|drafts| - 1], name)
  }

  /** A draft reads as the last draft of its file name. */
  lemma DraftReadsAsLast(files: Files, rows: Rows, job: Id, run: Id, drafts: seq<Draft>, ids: seq<Id>, k: nat)
    requires |drafts| == |ids| && k < |ids| && FreshIds(rows, ids) && Plain(job) && Plain(run)
    ensures ReadText(Written(files, job, run, drafts), Inserted(rows, job, run, drafts, ids), ids[k])
      == Some(drafts[LastNamed(drafts, FileName(drafts[k]))].text)
  {
    InsertedHas(rows, job, run, drafts, ids, k);
    var j := LastNamed(drafts, FileName(drafts[k]));
    LastDraftWins(files, job, run, drafts, j);
    assert PathOf(job, run, drafts[j]) == Location(ids[k], RowOf(job, run, drafts[k]));
  }

  /** Inputs and outputs of a run share its directory: what persistRun leaves shows an input
      as it was given exactly when the last output of its file name, or without one the last
      input of that name, has the same text. */
  lemma InputReadsBackIff(files: Files, rows: Rows, job: Id, run: Id, inputs: seq<Draft>, outputs: seq<Draft>,
                          inIds: seq<Id>, outIds: seq<Id>, k: nat)
    requires |inputs| == |inIds| && |outputs| == |outIds| && k < |inputs| && Plain(job) && Plain(run)
    requires FreshIds(rows, inIds + outIds)
    ensures var text := ReadText(Written(files, job, run, inputs + outputs),
                                 Inserted(rows, job, run, inputs + outputs, inIds + outIds), inIds[k]);
      text == Some(inputs[k].text) <==>
        var name := FileName(inputs[k]);
        inputs[k].text == if Named(outputs, name) then outputs[LastNamed(outputs, name)].text
                          else inputs[LastNamed(inputs, name)].text
  {
    var name := FileName(inputs[k]);
    DraftReadsAsLast(files, rows, job, run, inputs + outputs, inIds + outIds, k);
    LastNamedJoins(inputs, outputs, name);
    assert (inputs + outputs)[k] == inputs[k];
  }

  /** And every output as it was given exactly when the last output of its name has that text. */
  lemma OutputReadsBackIff(files: Files, rows: Rows, job: Id, run: Id, inputs: seq<Draft>, outputs: seq<Draft>,
                           inIds: seq<Id>, outIds: seq<Id>, k: nat)
    requires |inputs| == |inIds| && |outputs| == |outIds| && k < |outputs| && Plain(job) && Plain(run)
    requires FreshIds(rows, inIds + outIds)
    ensures var text := ReadText(Written(files, job, run, inputs + outputs),
                                 Inserted(rows, job, run, inputs + outputs, inIds + outIds), outIds[k]);
      text == Some(outputs[k].text) <==> outputs[LastNamed(outputs, FileName(outputs[k]))].text == outputs[k].text
  {
    var name := FileName(outputs[k]);
    DraftReadsAsLast(files, rows, job, run, inputs + outputs, inIds + outIds, |inputs| + k);
    assert (inputs + outputs)[|inputs| + k] == outputs[k] && Named(outputs, name);
    LastNamedJoins(inputs, outputs, name);
  }

  predicate Named(drafts: seq<Draft>, name: string) { exists k :: 0 <= k < |drafts| && FileName(drafts[k]) == name }

  lemma LastNamedJoins(a: seq<Draft>, b: seq<Draft>, name: string)
    requires Named(a + b, name)
    ensures Named(b, name) ==> LastNamed(a + b, name) == |a| + LastNamed(b, name)
    ensures !Named(b, name) ==> Named(a, name) && LastNamed(a + b, name) == LastNamed(a, name)
  {
    hide FileName, LastNamed;
    var ab := a + b;
    var k :| 0 <= k < |ab| && FileName(ab[k]) == name;
    assert forall x | 0 <= x < |a| :: ab[x] == a[x];
    assert forall x | |a| <= x < |ab| :: ab[x] == b[x - |a|];
    if Named(b, name) {
      var i, j := LastNamed(ab, name), LastNamed(b, name);
      assert ab[|a| + j] == b[j];
    }
  }

  /** One call of persistRun writes like one list of drafts, the inputs before the outputs. */
  lemma {:induction false} WrittenJoins(files: Files, job: Id, run: Id, a: seq<Draft>, b: seq<Draft>)
    ensures Written(Written(files, job, run, a), job, run, b) == Written(files, job, run, a + b)
  {
    if b == [] {
      assert a + b == a;
    } else {
      assert (a + b)[..|a + b| - 1] == a + b[..|b| - 1];
      WrittenJoins(files, job, run, a, b[..|b| - 1]);
    }
  }

  lemma {:induction false} InsertedJoins(rows: Rows, job: Id, run: Id, a: seq<Draft>, b: seq<Draft>, ids: seq<Id>,
                                         more: seq<Id>)
    requires |a| == |ids| && |b| == |more|
    ensures Inserted(Inserted(rows, job, run, a, ids), job, run, b, more) == Inserted(rows, job, run, a + b, ids + more)
    decreases |b|
  {
    hide Inserted;
    if b == [] {
      JoinsNone(rows, job, run, a, ids);
      assert more == [];
    } else {
      var front, d := b[..|b| - 1], b[|b| - 1];
      var before, id := more[..|more| - 1], more[|more| - 1];
      assert b == front + [d] && more == before + [id];
      InsertedJoins(rows, job, run, a, front, ids, before);
      JoinsOne(rows, job, run, a, front, ids, before, d, id);
    }
  }

  lemma JoinsNone(rows: Rows, job: Id, run: Id, a: seq<Draft>, ids: seq<Id>)
    requires |a| == |ids|
    ensures Inserted(Inserted(rows, job, run, a, ids), job, run, [], [])
      == Inserted(rows, job, run, a + [], ids + [])
  {
    assert a + [] == a && ids + [] == ids;
  }

  lemma JoinsOne(rows: Rows, job: Id, run: Id, a: seq<Draft>, b: seq<Draft>, ids: seq<Id>, more: seq<Id>, d: Draft,
                 id: Id)
    requires |a| == |ids| && |b| == |more|
    requires Inserted(Inserted(rows, job, run, a, ids), job, run, b, more)
      == Inserted(rows, job, run, a + b, ids + more)
    ensures Inserted(Inserted(rows, job, run, a, ids), job, run, b + [d], more + [id])
      == Inserted(rows, job, run, a + (b + [d]), ids + (more + [id]))
  {
    hide Inserted;
    InsertedSnoc(Inserted(rows, job, run, a, ids), job, run, b, more, d, id);
    InsertedSnoc(rows, job, run, a + b, ids + more, d, id);
    assert a + b + [d] == a + (b + [d]) && ids + more + [id] == ids + (more + [id]);
  }

  lemma InsertedSnoc(rows: Rows, job: Id, run: Id, drafts: seq<Draft>, ids: seq<Id>, d: Draft, id: Id)
    requires |drafts| == |ids|
    ensures Inserted(rows, job, run, drafts + [d], ids + [id])
      == Inserted(rows, job, run, drafts, ids)[id := RowOf(job, run, d)]
  {
    hide RowOf;
    assert (drafts + [d])[..|drafts|] == drafts && (ids + [id])[..|ids|] == ids;
  }

  lemma DistinctDraftReadsBack(files: Files, rows: Rows, job: Id, run: Id, drafts: seq<Draft>, ids: seq<Id>, k: nat)
    requires |drafts| == |ids| && k < |ids| && FreshIds(rows, ids) && Plain(job) && Plain(run)
    requires forall j | k < j < |drafts| :: FileName(drafts[j]) != FileName(drafts[k])
    ensures ReadText(Written(files, job, run, drafts), Inserted(rows, job, run, drafts, ids), ids[k])
      == Some(drafts[k].text)
  {
    InsertedHas(rows, job, run, drafts, ids, k);
    LastDraftWins(files, job, run, drafts, k);
    assert PathOf(job, run, drafts[k]) == Location(ids[k], RowOf(job, run, drafts[k]));
  }

  lemma {:induction false} TextsOfDrafts(files: Files, rows: Rows, refs: seq<FieldRef>, drafts: seq<Draft>)
    requires |refs| == |drafts|
    requires forall k | 0 <= k < |refs| ::
      refs[k].field == FieldName(drafts[k]) && ReadText(files, rows, refs[k].artifact) == Some(drafts[k].text)
    ensures Texts(files, rows, refs) == DraftTexts(drafts)
  {
    if refs != [] {
      hide ReadText, FieldName;
      TextsOfDrafts(files, rows, refs[..|refs| - 1], drafts[..|refs| - 1]);
    }
  }

  ghost predicate OfField(d: Draft, field: string) { exists name :: Names(d, field, name) }

  ghost predicate LastOfField(drafts: seq<Draft>, field: string, k: nat) {
    k < |drafts| && OfField(drafts[k], field) && forall j | k < j < |drafts| :: !OfField(drafts[j], field)
  }

  /** The texts of the drafts, each field with its last draft's. */
  ghost predicate TextsAre(texts: map<string, string>, drafts: seq<Draft>) {
    && (forall field, k: nat | LastOfField(drafts, field, k) :: field in texts && texts[field] == drafts[k].text)
    && (forall field | field in texts :: exists k: nat :: LastOfField(drafts, field, k))
  }

  lemma FieldIsName(d: Draft, field: string)
    ensures OfField(d, field) <==> field == FieldName(d)
  {
    hide Names, FieldName, FileName;
    DraftNames(d);
  }

  lemma LastOfFieldSnoc(drafts: seq<Draft>, last: Draft, field: string, k: nat)
    ensures LastOfField(drafts + [last], field, k) <==>
      if OfField(last, field) then k == |drafts| else LastOfField(drafts, field, k)
  {
    hide OfField;
    var all := drafts + [last];
    assert all[|drafts|] == last && forall j | 0 <= j < |drafts| :: all[j] == drafts[j];
  }

  lemma {:induction false} DraftTextsAre(drafts: seq<Draft>)
    ensures TextsAre(DraftTexts(drafts), drafts)
  {
    if drafts == [] {
      assert forall field, k: nat :: !LastOfField([], field, k) by { NoneOfField(); }
    } else {
      hide LastOfField, OfField, FieldName;
      var front, last := drafts[..|drafts| - 1], drafts[|drafts| - 1];
      assert front + [last] == drafts;
      DraftTextsAre(front);
      var texts := DraftTexts(drafts);
      forall field, k: nat | LastOfField(drafts, field, k)
        ensures k < |drafts| && field in texts && texts[field] == drafts[k].text
      {
        LastOfFieldSnoc(front, last, field, k);
        FieldIsName(last, field);
        LastOfFieldInRange(front, field, k);
      }
      forall field | field in texts ensures exists k: nat :: LastOfField(drafts, field, k) {
        FieldIsName(last, field);
        if field == FieldName(last) {
          LastOfFieldSnoc(front, last, field, |front|);
        } else {
          var k: nat :| LastOfField(front, field, k);
          LastOfFieldSnoc(front, last, field, k);
        }
      }
    }
  }

  lemma NoneOfField()
    ensures forall field, k: nat :: !LastOfField([], field, k)
  {
  }

  lemma LastOfFieldInRange(drafts: seq<Draft>, field: string, k: nat)
    ensures LastOfField(drafts, field, k) ==> k < |drafts|
  {
  }

  /** With distinct file names, the texts read for a new run's outputs are the drafts' texts:
      files behave like the map of module Pipeline. */
  lemma NewRunTexts(files: Files, rows: Rows, job: Id, run: Id, drafts: seq<Draft>, ids: seq<Id>)
    requires |drafts| == |ids| && FreshIds(rows, ids) && Plain(job) && Plain(run)
    requires forall i, j | 0 <= i < j < |drafts| :: FileName(drafts[i]) != FileName(drafts[j])
    ensures Texts(Written(files, job, run, drafts), Inserted(rows, job, run, drafts, ids), Refs(drafts, ids))
      == DraftTexts(drafts)
    ensures TextsAre(Texts(Written(files, job, run, drafts), Inserted(rows, job, run, drafts, ids), Refs(drafts, ids)),
      drafts)
  {
    DraftTextsAre(drafts);
    hide TextsAre;
    forall k | 0 <= k < |drafts| {
      DistinctDraftReadsBack(files, rows, job, run, drafts, ids, k);
    }
    hide Written, Inserted, ReadText, FileName;
    TextsOfDrafts(Written(files, job, run, drafts), Inserted(rows, job, run, drafts, ids), Refs(drafts, ids), drafts);
  }

  // --- What an edit changes --------------------------------------------------------------

  /** An edit is seen through exactly the artifacts that share the file. */
  lemma EditSeenIff(files: Files, rows: Rows, id: Id, other: Id, content: string)
    requires PlainRows(rows) && id in rows && other in rows
    ensures ReadText(files[Location(id, rows[id]) := content], rows, other)
      == if SameFile(id, rows[id], other, rows[other]) then Some(content) else ReadText(files, rows, other)
  {
    SharedLocation(id, rows[id], other, rows[other]);
  }

  /** On a run's outputs, the edit of one field is the map update of module Pipeline. */
  lemma {:induction false} EditedTexts(files: Files, rows: Rows, refs: seq<FieldRef>, k: nat, content: string)
    requires PlainRows(rows) && k < |refs| && refs[k].artifact in rows
    requires Location(refs[k].artifact, rows[refs[k].artifact]) in files
    requires forall j | 0 <= j < |refs| :: refs[j].artifact in rows
    requires forall i, j | 0 <= i < j < |refs| ::
      refs[i].field != refs[j].field && rows[refs[i].artifact] != rows[refs[j].artifact]
    ensures var id := refs[k].artifact;
      Texts(files[Location(id, rows[id]) := content], rows, refs) == Texts(files, rows, refs)[refs[k].field := content]
  {
    var id := refs[k].artifact;
    var edited := files[Location(id, rows[id]) := content];
    var last := |refs| - 1;
    var front, ref := refs[..last], refs[last];
    assert front + [ref] == refs;
    TextsSnoc(files, rows, front, ref);
    TextsSnoc(edited, rows, front, ref);
    if k < last {
      EditSpares(files, rows, id, ref.artifact, content);
      EditedTexts(files, rows, front, k, content);
    } else {
      EditSeenIff(files, rows, id, id, content);
      UntouchedTexts(files, rows, front, id, content);
    }
    hide Texts, Location, PlainRow;
  }

  lemma EditSpares(files: Files, rows: Rows, id: Id, other: Id, content: string)
    requires PlainRows(rows) && id in rows && other in rows && rows[id] != rows[other]
    ensures ReadText(files[Location(id, rows[id]) := content], rows, other) == ReadText(files, rows, other)
  {
    EditSeenIff(files, rows, id, other, content);
  }

  lemma {:induction false} UntouchedTexts(files: Files, rows: Rows, refs: seq<FieldRef>, id: Id, content: string)
    requires PlainRows(rows) && id in rows
    requires forall j | 0 <= j < |refs| :: refs[j].artifact in rows && rows[refs[j].artifact] != rows[id]
    ensures Texts(files[Location(id, rows[id]) := content], rows, refs) == Texts(files, rows, refs)
  {
    if refs != [] {
      EditSpares(files, rows, id, refs[|refs| - 1].artifact, content);
      UntouchedTexts(files, rows, refs[..|refs| - 1], id, content);
    }
  }
}
