/**
 Treatment charts: numbered revisions of which only the last can be a draft, photos shared between
 revisions, and the cleanup of photos that no revision shows any more. Uploads and cleanups run in
 several steps beside the chart transactions and may interleave with anything.
 */
module Charts {
  import opened Common

  const MAX_PHOTOS := 10

  // ---- State ----

  /** The clinical text; a chart is finalized only with a description of the treatment. */
  datatype Content = Content(performed: string, rest: string)

  datatype Revision = Revision(draft: bool, content: Content, photos: set<nat>)

  /** Revision number k is at position k - 1. */
  datatype Chart = Chart(reservation: nat, version: int, current: nat, revisions: seq<Revision>)

  /** The row of a photo object: its chart, and whether deletion is pending. */
  datatype Photo = Photo(chart: nat, tombstone: bool)

  /** An upload request: the object is written first, then the row in a transaction. */
  datatype Upload =
    | Putting(chart: nat, version: int)
    | Stored(chart: nat, version: int)
    | RolledBack(chart: nat)
    | Ended
    | Unknown        // ended without knowing whether the object was written or the row committed

  /** A cleanup that still has these rows to visit; `gone` when the object of the first one is removed. */
  datatype Cleaner = Cleaner(rows: seq<nat>, gone: bool)

  datatype State = State(charts: seq<Chart>, photos: map<nat, Photo>, storage: set<nat>, uploads: map<nat, Upload>,
                         cleaners: map<nat, Cleaner>)
  {
    function At(photo: nat): Upload {
      if photo in uploads then uploads[photo] else Ended
    }
  }

  // ---- Chart transactions ----

  /** The last revision, if the chart exists, is at the expected version and its number is the current one. */
  function FindCurrent(s: State, id: nat, expectedVersion: int): Result<Revision, string> {
    if id >= |s.charts| then Failure("CHART_NOT_FOUND")
    else
      var c := s.charts[id];
      if c.version != expectedVersion then Failure("CHART_CONFLICT")
      else if |c.revisions| == 0 || |c.revisions| != c.current then Failure("REVISION_MISSING")
      else Success(c.revisions[|c.revisions| - 1])
  }

  /** The chart with its last revision replaced and its version bumped. */
  function Rewrite(c: Chart, r: Revision): Chart
    requires |c.revisions| > 0
  {
    c.(version := c.version + 1, revisions := c.revisions[|c.revisions| - 1 := r])
  }

  function CreateChart(s: State, reservation: nat, content: Content): Result<State, string> {
    if exists i :: 0 <= i < |s.charts| && s.charts[i].reservation == reservation then Failure("CHART_EXISTS")
    else Success(s.(charts := s.charts + [Chart(reservation, 1, 1, [Revision(true, content, {})])]))
  }

  function UpdateDraft(s: State, id: nat, expectedVersion: int, content: Content): Result<State, string> {
    var r := FindCurrent(s, id, expectedVersion);
    if r.Failure? then Failure(r.error)
    else if !r.value.draft then Failure("CHART_FINALIZED")
    else Success(s.(charts := s.charts[id := Rewrite(s.charts[id], r.value.(content := content))]))
  }

  function Finalize(s: State, id: nat, expectedVersion: int): Result<State, string> {
    var r := FindCurrent(s, id, expectedVersion);
    if r.Failure? then Failure(r.error)
    else if !r.value.draft then Failure("CHART_FINALIZED")
    else if |r.value.content.performed| == 0 then Failure("CHART_CONTENT_REQUIRED")
    else Success(s.(charts := s.charts[id := Rewrite(s.charts[id], r.value.(draft := false))]))
  }

  /** A new draft that starts from the finalized revision, photos included. */
  function Amend(s: State, id: nat, expectedVersion: int): Result<State, string> {
    var r := FindCurrent(s, id, expectedVersion);
    if r.Failure? then Failure(r.error)
    else if r.value.draft then Failure("CHART_DRAFT_EXISTS")
    else
      var c := s.charts[id];
      Success(s.(charts := s.charts[id := c.(version := c.version + 1, current := c.current + 1,
                                             revisions := c.revisions + [r.value.(draft := true)])]))
  }

  /** A photo row with its link; refused when the draft is full. */
  function AddPhoto(s: State, id: nat, expectedVersion: int, photo: nat): Result<State, string> {
    var r := FindCurrent(s, id, expectedVersion);
    if r.Failure? then Failure(r.error)
    else if !r.value.draft then Failure("CHART_FINALIZED")
    else if |r.value.photos| >= MAX_PHOTOS then Failure("CHART_PHOTO_LIMIT")
    else Success(s.(charts := s.charts[id := Rewrite(s.charts[id], r.value.(photos := r.value.photos + {photo}))],
                    photos := s.photos[photo := Photo(id, false)]))
  }

  predicate ShownBy(c: Chart, photo: nat) {
    exists k :: 0 <= k < |c.revisions| && photo in c.revisions[k].photos
  }

  /** Some revision of some chart shows the photo. */
  predicate Shown(charts: seq<Chart>, photo: nat) {
    exists i :: 0 <= i < |charts| && ShownBy(charts[i], photo)
  }

  /** The link goes; the row becomes a tombstone when no revision shows the photo any more. */
  function RemovePhoto(s: State, id: nat, expectedVersion: int, photo: nat): Result<State, string> {
    var r := FindCurrent(s, id, expectedVersion);
    if r.Failure? then Failure(r.error)
    else if !r.value.draft then Failure("CHART_FINALIZED")
    else if photo !in r.value.photos then Failure("CHART_PHOTO_NOT_FOUND")
    else
      var charts := s.charts[id := Rewrite(s.charts[id], r.value.(photos := r.value.photos - {photo}))];
      Success(s.(charts := charts,
                 photos := if photo in s.photos && s.photos[photo].chart == id && !Shown(charts, photo)
                           then s.photos[photo := s.photos[photo].(tombstone := true)] else s.photos))
  }

  // ---- Uploads ----

  datatype CommitOutcome = Attempted | Conflicted | LostUncommitted

  /** A fresh photo number is drawn once a preview of the draft has shown room. */
  function BeginUpload(s: State, photo: nat, id: nat, expectedVersion: int): State {
    var r := FindCurrent(s, id, expectedVersion);
    if photo in s.uploads || photo in s.photos || photo in s.storage || r.Failure? || !r.value.draft
       || |r.value.photos| >= MAX_PHOTOS
    then s else s.(uploads := s.uploads[photo := Putting(id, expectedVersion)])
  }

  /** The object may be written with or without an answer; without one the request ends. */
  function PutObject(s: State, photo: nat, written: bool, answered: bool): State {
    if photo !in s.uploads || !s.uploads[photo].Putting? then s
    else
      var u := s.uploads[photo];
      s.(storage := if written then s.storage + {photo} else s.storage,
         uploads := s.uploads[photo := if written && answered then Stored(u.chart, u.version) else Unknown])
  }

  /** The row's transaction: done, certainly rolled back, or its outcome unknown and not committed. */
  function CommitUpload(s: State, photo: nat, outcome: CommitOutcome): State {
    if photo !in s.uploads || !s.uploads[photo].Stored? then s
    else
      var u := s.uploads[photo];
      var added := AddPhoto(s, u.chart, u.version, photo);
      if outcome == LostUncommitted then s.(uploads := s.uploads[photo := Unknown])
      else if outcome == Conflicted || added.Failure? then s.(uploads := s.uploads[photo := RolledBack(u.chart)])
      else added.value.(uploads := s.uploads[photo := Ended])
  }

  /** After a certain rollback the object is recorded as a tombstone, unless a row exists. */
  function RecordTombstone(s: State, photo: nat): State {
    if photo !in s.uploads || !s.uploads[photo].RolledBack? then s
    else s.(uploads := s.uploads[photo := Ended],
            photos := if photo in s.photos then s.photos
                      else s.photos[photo := Photo(s.uploads[photo].chart, true)])
  }

  // ---- Cleanup ----

  predicate Collectable(s: State, photo: nat) {
    photo in s.photos && s.photos[photo].tombstone && !Shown(s.charts, photo)
  }

  /** A cleanup starts by reading some collectable rows. */
  function StartCleanup(s: State, cleaner: nat, rows: seq<nat>): State {
    if cleaner in s.cleaners || |rows| > 100 || exists i :: 0 <= i < |rows| && !Collectable(s, rows[i]) then s
    else s.(cleaners := s.cleaners[cleaner := Cleaner(rows, false)])
  }

  /** The object of the first row is removed; without an answer the row is left for a later cleanup. */
  function RemoveObject(s: State, cleaner: nat, removed: bool, answered: bool): State {
    if cleaner !in s.cleaners || |s.cleaners[cleaner].rows| == 0 || s.cleaners[cleaner].gone then s
    else
      var rows := s.cleaners[cleaner].rows;
      s.(storage := if removed then s.storage - {rows[0]} else s.storage,
         cleaners := s.cleaners[cleaner := if removed && answered then Cleaner(rows, true) else Cleaner(rows[1..], false)])
  }

  /** The row goes if it is still collectable. */
  function DeleteRow(s: State, cleaner: nat): State {
    if cleaner !in s.cleaners || |s.cleaners[cleaner].rows| == 0 || !s.cleaners[cleaner].gone then s
    else
      var rows := s.cleaners[cleaner].rows;
      s.(photos := if Collectable(s, rows[0]) then s.photos - {rows[0]} else s.photos,
         cleaners := s.cleaners[cleaner := Cleaner(rows[1..], false)])
  }

  // ---- Steps ----

  datatype Step =
    | DoCreate(reservation: nat, content: Content)
    | DoUpdate(id: nat, version: int, content: Content)
    | DoFinalize(id: nat, version: int)
    | DoAmend(id: nat, version: int)
    | DoRemove(id: nat, version: int, photo: nat)
    | DoBegin(photo: nat, id: nat, version: int)
    | DoPut(photo: nat, written: bool, answered: bool)
    | DoCommit(photo: nat, outcome: CommitOutcome)
    | DoTombstone(photo: nat)
    | DoStart(cleaner: nat, rows: seq<nat>)
    | DoRemoveObject(cleaner: nat, removed: bool, answered: bool)
    | DoDeleteRow(cleaner: nat)

  function Committed(s: State, r: Result<State, string>): State {
    if r.Success? then r.value else s
  }

  function Apply(s: State, step: Step): State {
    match step
    case DoCreate(reservation, content) => Committed(s, CreateChart(s, reservation, content))
    case DoUpdate(id, version, content) => Committed(s, UpdateDraft(s, id, version, content))
    case DoFinalize(id, version) => Committed(s, Finalize(s, id, version))
    case DoAmend(id, version) => Committed(s, Amend(s, id, version))
    case DoRemove(id, version, photo) => Committed(s, RemovePhoto(s, id, version, photo))
    case DoBegin(photo, id, version) => BeginUpload(s, photo, id, version)
    case DoPut(photo, written, answered) => PutObject(s, photo, written, answered)
    case DoCommit(photo, outcome) => CommitUpload(s, photo, outcome)
    case DoTombstone(photo) => RecordTombstone(s, photo)
    case DoStart(cleaner, rows) => StartCleanup(s, cleaner, rows)
    case DoRemoveObject(cleaner, removed, answered) => RemoveObject(s, cleaner, removed, answered)
    case DoDeleteRow(cleaner) => DeleteRow(s, cleaner)
  }

  function Run(s: State, steps: seq<Step>): State {
    if |steps| == 0 then s else Apply(Run(s, steps[..|steps| - 1]), steps[|steps| - 1])
  }

  const Empty := State([], map[], {}, map[], map[])

  // ---- The invariant ----

  /** All revisions but the last are finalized, none has too many photos, and the current number is the last. */
  predicate ChartOk(c: Chart) {
    && |c.revisions| > 0 && c.current == |c.revisions|
    && (forall k :: 0 <= k < |c.revisions| ==> |c.revisions[k].photos| <= MAX_PHOTOS)
    && (forall k :: 0 <= k < |c.revisions| - 1 ==> !c.revisions[k].draft)
  }

  /** A photo shown by a chart has a live row of that chart and its object in storage. */
  predicate ShownOk(s: State, i: nat, photo: nat) {
    && photo in s.photos && s.photos[photo].chart == i && !s.photos[photo].tombstone
    && photo in s.storage
  }

  ghost predicate ShownAreLive(s: State) {
    forall i, photo :: 0 <= i < |s.charts| && ShownBy(s.charts[i], photo) ==> ShownOk(s, i, photo)
  }

  /** Every row is either shown or a tombstone. */
  ghost predicate RowsAccounted(s: State) {
    forall photo :: photo in s.photos && !s.photos[photo].tombstone ==> Shown(s.charts, photo)
  }

  predicate Pending(u: Upload) {
    u.Putting? || u.Stored? || u.RolledBack?
  }

  /** A photo number in an unfinished upload has no row, and no cleanup knows it. */
  predicate UploadsFresh(s: State) {
    forall photo :: photo in s.uploads && Pending(s.uploads[photo]) ==>
      photo !in s.photos
      && (s.uploads[photo].Stored? ==> photo in s.storage)
      && forall c :: c in s.cleaners ==> photo !in s.cleaners[c].rows
  }

  /** What a cleanup holds was a tombstone and is one still, unless its row is gone. */
  predicate CleanersSafe(s: State) {
    forall c, i :: c in s.cleaners && 0 <= i < |s.cleaners[c].rows| ==>
      var photo := s.cleaners[c].rows[i];
      photo !in s.photos || s.photos[photo].tombstone
  }

  /** Only uploads draw photo numbers, so a number seen anywhere is never drawn again. */
  predicate NumbersDrawn(s: State) {
    && (forall photo :: photo in s.photos ==> photo in s.uploads)
    && (forall photo :: photo in s.storage ==> photo in s.uploads)
    && (forall c, i :: c in s.cleaners && 0 <= i < |s.cleaners[c].rows| ==> s.cleaners[c].rows[i] in s.uploads)
  }

  ghost predicate ChartsOk(charts: seq<Chart>) {
    && (forall i :: 0 <= i < |charts| ==> ChartOk(charts[i]))
    && (forall i, j :: 0 <= i < j < |charts| ==> charts[i].reservation != charts[j].reservation)
  }

  ghost predicate Inv(s: State) {
    && ChartsOk(s.charts) && ShownAreLive(s) && RowsAccounted(s) && UploadsFresh(s) && CleanersSafe(s) && NumbersDrawn(s)
  }

  // ---- Chart transactions keep it ----

  /** Replacing a chart by one that shows the same photos. */
  lemma SameShown(charts: seq<Chart>, id: nat, c: Chart, photo: nat)
    requires id < |charts| && ShownBy(c, photo) == ShownBy(charts[id], photo)
    ensures Shown(charts[id := c], photo) == Shown(charts, photo)
  {
    var now := charts[id := c];
    if i :| 0 <= i < |charts| && ShownBy(charts[i], photo) { assert ShownBy(now[i], photo); }
    if i :| 0 <= i < |now| && ShownBy(now[i], photo) { assert ShownBy(charts[i], photo); }
  }

  lemma SamePhotosKeep(s: State, id: nat, c: Chart)
    requires Inv(s) && id < |s.charts| && ChartOk(c) && c.reservation == s.charts[id].reservation
    requires forall photo :: ShownBy(c, photo) == ShownBy(s.charts[id], photo)
    ensures Inv(s.(charts := s.charts[id := c]))
  {
    var now := s.(charts := s.charts[id := c]);
    forall i, photo | 0 <= i < |now.charts| && ShownBy(now.charts[i], photo) ensures ShownOk(now, i, photo) {
      assert ShownBy(s.charts[i], photo);
      assert ShownOk(s, i, photo);
    }
    forall photo | photo in now.photos && !now.photos[photo].tombstone ensures Shown(now.charts, photo) {
      SameShown(s.charts, id, c, photo);
    }
  }

  /** The revision that was found is the chart's last, with all others finalized. */
  lemma CurrentRevision(s: State, id: nat, version: int)
    requires Inv(s) && FindCurrent(s, id, version).Success?
    ensures id < |s.charts| && ChartOk(s.charts[id]) && |s.charts[id].revisions| > 0
    ensures FindCurrent(s, id, version).value == s.charts[id].revisions[|s.charts[id].revisions| - 1]
  {
  }

  lemma RewriteShows(c: Chart, r: Revision, photo: nat)
    requires |c.revisions| > 0
    ensures ShownBy(Rewrite(c, r), photo)
       <==> photo in r.photos || exists k :: 0 <= k < |c.revisions| - 1 && photo in c.revisions[k].photos
  {
    var last := |c.revisions| - 1;
    if photo in r.photos { assert photo in Rewrite(c, r).revisions[last].photos; }
    if k :| 0 <= k < last && photo in c.revisions[k].photos { assert photo in Rewrite(c, r).revisions[k].photos; }
  }

  lemma RewriteKeeps(s: State, id: nat, version: int, r: Revision)
    requires Inv(s) && FindCurrent(s, id, version).Success? && r.photos == FindCurrent(s, id, version).value.photos
    ensures Inv(s.(charts := s.charts[id := Rewrite(s.charts[id], r)]))
  {
    CurrentRevision(s, id, version);
    var c := s.charts[id];
    var last := c.revisions[|c.revisions| - 1];
    assert Rewrite(c, last).revisions == c.revisions;
    forall photo ensures ShownBy(Rewrite(c, r), photo) == ShownBy(c, photo) {
      RewriteShows(c, r, photo);
      RewriteShows(c, last, photo);
    }
    SamePhotosKeep(s, id, Rewrite(c, r));
  }

  lemma AmendKeeps(s: State, id: nat, version: int)
    requires Inv(s) && Amend(s, id, version).Success?
    ensures Inv(Amend(s, id, version).value)
  {
    CurrentRevision(s, id, version);
    var c := s.charts[id];
    var now := Amend(s, id, version).value.charts[id];
    forall photo ensures ShownBy(now, photo) == ShownBy(c, photo) {
      if k :| 0 <= k < |c.revisions| && photo in c.revisions[k].photos { assert photo in now.revisions[k].photos; }
      if k :| 0 <= k < |now.revisions| && photo in now.revisions[k].photos {
        assert photo in c.revisions[if k < |c.revisions| then k else k - 1].photos;
      }
    }
    SamePhotosKeep(s, id, now);
  }

  lemma CreateKeeps(s: State, reservation: nat, content: Content)
    requires Inv(s) && CreateChart(s, reservation, content).Success?
    ensures Inv(CreateChart(s, reservation, content).value)
  {
    var now := CreateChart(s, reservation, content).value;
    forall i, photo | 0 <= i < |now.charts| && ShownBy(now.charts[i], photo) ensures ShownOk(now, i, photo) {
      assert i < |s.charts| && now.charts[i] == s.charts[i];
      assert ShownOk(s, i, photo);
    }
    forall photo | photo in now.photos && !now.photos[photo].tombstone ensures Shown(now.charts, photo) {
      assert Shown(s.charts, photo);
      var i :| 0 <= i < |s.charts| && ShownBy(s.charts[i], photo);
      assert ShownBy(now.charts[i], photo);
    }
  }

  // ---- Photos come and go ----

  lemma AddPhotoShows(s: State, id: nat, version: int, photo: nat)
    requires Inv(s) && AddPhoto(s, id, version, photo).Success?
    ensures var now := AddPhoto(s, id, version, photo).value;
            && id < |s.charts| && now.charts == s.charts[id := now.charts[id]] && ChartOk(now.charts[id])
            && now.charts[id].reservation == s.charts[id].reservation
            && forall p :: ShownBy(now.charts[id], p) <==> ShownBy(s.charts[id], p) || p == photo
  {
    CurrentRevision(s, id, version);
    var c := s.charts[id];
    var last := c.revisions[|c.revisions| - 1];
    var r := last.(photos := last.photos + {photo});
    assert Rewrite(c, last).revisions == c.revisions;
    forall p ensures ShownBy(Rewrite(c, r), p) <==> ShownBy(c, p) || p == photo {
      RewriteShows(c, r, p);
      RewriteShows(c, last, p);
    }
  }

  lemma CommitKeeps(s: State, photo: nat, outcome: CommitOutcome)
    requires Inv(s)
    ensures Inv(CommitUpload(s, photo, outcome))
  {
    var now := CommitUpload(s, photo, outcome);
    if photo in s.uploads && s.uploads[photo].Stored? {
      var u := s.uploads[photo];
      if outcome == Attempted && AddPhoto(s, u.chart, u.version, photo).Success? {
        AddPhotoShows(s, u.chart, u.version, photo);
        AddedIsLive(s, now, u.chart, photo);
      } else {
        assert now == s.(uploads := now.uploads);
        ForgetUpload(s, now);
      }
    }
  }

  /** Upload progress alone changes nothing about charts and photos. */
  lemma ForgetUpload(s: State, now: State)
    requires Inv(s) && now == s.(uploads := now.uploads) && s.uploads.Keys <= now.uploads.Keys
    requires UploadsFresh(now)
    ensures Inv(now)
  {
    forall i, photo | 0 <= i < |now.charts| && ShownBy(now.charts[i], photo) ensures ShownOk(now, i, photo) {
      assert ShownOk(s, i, photo);
    }
  }

  lemma ShownHasRow(s: State, i: nat, photo: nat)
    requires Inv(s) && i < |s.charts|
    ensures ShownBy(s.charts[i], photo) ==> photo in s.photos && !s.photos[photo].tombstone
  {
    if ShownBy(s.charts[i], photo) { assert ShownOk(s, i, photo); }
  }

  lemma PendingNotShown(s: State, photo: nat)
    requires Inv(s) && photo in s.uploads && Pending(s.uploads[photo])
    ensures forall i :: 0 <= i < |s.charts| ==> !ShownBy(s.charts[i], photo)
  {
    forall i | 0 <= i < |s.charts| ensures !ShownBy(s.charts[i], photo) {
      ShownHasRow(s, i, photo);
    }
  }

  /** The committed photo is live, everything else is as it was. */
  lemma AddedIsLive(s: State, now: State, id: nat, photo: nat)
    requires Inv(s) && photo in s.uploads && s.uploads[photo].Stored? && id < |s.charts| && id < |now.charts|
    requires now == s.(charts := s.charts[id := now.charts[id]], photos := s.photos[photo := Photo(id, false)],
                       uploads := s.uploads[photo := Ended])
    requires ChartOk(now.charts[id]) && now.charts[id].reservation == s.charts[id].reservation
    requires forall p :: ShownBy(now.charts[id], p) <==> ShownBy(s.charts[id], p) || p == photo
    ensures Inv(now)
  {
    PendingNotShown(s, photo);
    forall i, p | 0 <= i < |now.charts| && ShownBy(now.charts[i], p) ensures ShownOk(now, i, p) {
      if p != photo {
        assert ShownBy(s.charts[i], p);
        assert ShownOk(s, i, p);
      }
    }
    forall p | p in now.photos && !now.photos[p].tombstone ensures Shown(now.charts, p) {
      if p == photo {
        assert ShownBy(now.charts[id], p);
      } else {
        assert Shown(s.charts, p);
        var i :| 0 <= i < |s.charts| && ShownBy(s.charts[i], p);
        assert ShownBy(now.charts[i], p);
      }
    }
  }

  lemma RemoveKeeps(s: State, id: nat, version: int, photo: nat)
    requires Inv(s) && RemovePhoto(s, id, version, photo).Success?
    ensures Inv(RemovePhoto(s, id, version, photo).value)
  {
    var now := RemovePhoto(s, id, version, photo).value;
    CurrentRevision(s, id, version);
    var c := s.charts[id];
    var last := c.revisions[|c.revisions| - 1];
    var r := last.(photos := last.photos - {photo});
    assert Rewrite(c, last).revisions == c.revisions;
    assert |r.photos| <= |last.photos| by { Smaller(last.photos, photo); }
    forall p ensures ShownBy(now.charts[id], p) ==> ShownBy(c, p)
      ensures p != photo ==> ShownBy(now.charts[id], p) == ShownBy(c, p)
    {
      RewriteShows(c, r, p);
      RewriteShows(c, last, p);
    }
    assert ShownBy(c, photo) && ShownOk(s, id, photo);
    RemovedIsAccounted(s, now, id, photo);
  }

  lemma Smaller(a: set<nat>, x: nat)
    ensures |a - {x}| <= |a|
  {
    if x in a { assert a == (a - {x}) + {x}; }
    else { assert a - {x} == a; }
  }

  lemma RemovedIsAccounted(s: State, now: State, id: nat, photo: nat)
    requires Inv(s) && id < |s.charts| && id < |now.charts| && ShownOk(s, id, photo)
    requires now == s.(charts := s.charts[id := now.charts[id]],
                       photos := if Shown(now.charts, photo) then s.photos
                                 else s.photos[photo := s.photos[photo].(tombstone := true)])
    requires ChartOk(now.charts[id]) && now.charts[id].reservation == s.charts[id].reservation
    requires forall p :: ShownBy(now.charts[id], p) ==> ShownBy(s.charts[id], p)
    requires forall p :: p != photo ==> ShownBy(now.charts[id], p) == ShownBy(s.charts[id], p)
    ensures Inv(now)
  {
    forall i, p | 0 <= i < |now.charts| && ShownBy(now.charts[i], p) ensures ShownOk(now, i, p) {
      assert ShownBy(s.charts[i], p);
      assert ShownOk(s, i, p);
    }
    forall p | p in now.photos && !now.photos[p].tombstone ensures Shown(now.charts, p) {
      if p != photo {
        SameShown(s.charts, id, now.charts[id], p);
      }
    }
  }

  // ---- Uploads and cleanups ----

  lemma PutKeeps(s: State, photo: nat, written: bool, answered: bool)
    requires Inv(s)
    ensures Inv(PutObject(s, photo, written, answered))
  {
    var now := PutObject(s, photo, written, answered);
    forall i, p | 0 <= i < |now.charts| && ShownBy(now.charts[i], p) ensures ShownOk(now, i, p) {
      assert ShownOk(s, i, p);
    }
  }

  lemma TombstoneKeeps(s: State, photo: nat)
    requires Inv(s)
    ensures Inv(RecordTombstone(s, photo))
  {
    var now := RecordTombstone(s, photo);
    forall i, p | 0 <= i < |now.charts| && ShownBy(now.charts[i], p) ensures ShownOk(now, i, p) {
      assert ShownOk(s, i, p);
    }
  }

  lemma StartKeeps(s: State, cleaner: nat, rows: seq<nat>)
    requires Inv(s)
    ensures Inv(StartCleanup(s, cleaner, rows))
  {
    var now := StartCleanup(s, cleaner, rows);
    if now != s {
      forall i | 0 <= i < |rows| ensures rows[i] in s.photos && s.photos[rows[i]].tombstone {
        assert Collectable(s, rows[i]);
      }
      forall i, p | 0 <= i < |now.charts| && ShownBy(now.charts[i], p) ensures ShownOk(now, i, p) {
        assert ShownOk(s, i, p);
      }
    }
  }

  /** A cleanup with fewer rows knows nothing new. */
  lemma FewerRows(s: State, cleaner: nat, gone: bool)
    requires UploadsFresh(s) && CleanersSafe(s) && NumbersDrawn(s)
    requires cleaner in s.cleaners && |s.cleaners[cleaner].rows| > 0
    ensures var now := s.(cleaners := s.cleaners[cleaner := Cleaner(s.cleaners[cleaner].rows[1..], gone)]);
            UploadsFresh(now) && CleanersSafe(now) && NumbersDrawn(now)
  {
    var rows := s.cleaners[cleaner].rows;
    var now := s.(cleaners := s.cleaners[cleaner := Cleaner(rows[1..], gone)]);
    forall c, i | c in now.cleaners && 0 <= i < |now.cleaners[c].rows|
      ensures now.cleaners[c].rows[i] == s.cleaners[c].rows[if c == cleaner then i + 1 else i]
    {
    }
    forall c, p | c in now.cleaners && p in now.cleaners[c].rows ensures p in s.cleaners[c].rows {
    }
  }

  lemma RemoveObjectKeeps(s: State, cleaner: nat, removed: bool, answered: bool)
    requires Inv(s)
    ensures Inv(RemoveObject(s, cleaner, removed, answered))
  {
    var now := RemoveObject(s, cleaner, removed, answered);
    if now != s {
      var rows := s.cleaners[cleaner].rows;
      FewerRows(s, cleaner, false);
      assert rows[0] in rows;
      forall i, p | 0 <= i < |now.charts| && ShownBy(now.charts[i], p) ensures ShownOk(now, i, p) {
        assert ShownOk(s, i, p);
      }
      forall p | p in now.uploads && Pending(now.uploads[p])
        ensures p !in now.photos && (now.uploads[p].Stored? ==> p in now.storage)
        ensures forall c :: c in now.cleaners ==> p !in now.cleaners[c].rows
      {
        assert p !in rows;
        forall c | c in now.cleaners ensures p !in now.cleaners[c].rows {
          assert p !in s.cleaners[c].rows;
        }
      }
    }
  }

  lemma DeleteRowKeeps(s: State, cleaner: nat)
    requires Inv(s)
    ensures Inv(DeleteRow(s, cleaner))
  {
    var now := DeleteRow(s, cleaner);
    if now != s {
      FewerRows(s, cleaner, false);
      var head := s.cleaners[cleaner].rows[0];
      forall i, p | 0 <= i < |now.charts| && ShownBy(now.charts[i], p) ensures ShownOk(now, i, p) {
        assert ShownOk(s, i, p);
        assert Shown(s.charts, p);
      }
    }
  }

  lemma BeginKeeps(s: State, photo: nat, id: nat, version: int)
    requires Inv(s)
    ensures Inv(BeginUpload(s, photo, id, version))
  {
    var now := BeginUpload(s, photo, id, version);
    if now != s { ForgetUpload(s, now); }
  }

  // ---- Runs ----

  lemma StepKeeps(s: State, step: Step)
    requires Inv(s)
    ensures Inv(Apply(s, step))
  {
    match step
    case DoCreate(reservation, content) => if CreateChart(s, reservation, content).Success? { CreateKeeps(s, reservation, content); }
    case DoUpdate(id, version, content) =>
      if UpdateDraft(s, id, version, content).Success? {
        RewriteKeeps(s, id, version, FindCurrent(s, id, version).value.(content := content));
      }
    case DoFinalize(id, version) =>
      if Finalize(s, id, version).Success? { RewriteKeeps(s, id, version, FindCurrent(s, id, version).value.(draft := false)); }
    case DoAmend(id, version) => if Amend(s, id, version).Success? { AmendKeeps(s, id, version); }
    case DoRemove(id, version, photo) => if RemovePhoto(s, id, version, photo).Success? { RemoveKeeps(s, id, version, photo); }
    case DoBegin(photo, id, version) => BeginKeeps(s, photo, id, version);
    case DoPut(photo, written, answered) => PutKeeps(s, photo, written, answered);
    case DoCommit(photo, outcome) => CommitKeeps(s, photo, outcome);
    case DoTombstone(photo) => TombstoneKeeps(s, photo);
    case DoStart(cleaner, rows) => StartKeeps(s, cleaner, rows);
    case DoRemoveObject(cleaner, removed, answered) => RemoveObjectKeeps(s, cleaner, removed, answered);
    case DoDeleteRow(cleaner) => DeleteRowKeeps(s, cleaner);
  }

  lemma {:induction false} RunKeeps(s: State, steps: seq<Step>)
    requires Inv(s)
    ensures Inv(Run(s, steps))
  {
    if |steps| > 0 {
      RunKeeps(s, steps[..|steps| - 1]);
      StepKeeps(Run(s, steps[..|steps| - 1]), steps[|steps| - 1]);
    }
  }

  lemma EmptyInv()
    ensures Inv(Empty)
  {
  }

  // ---- What holds over whole runs ----

  /** A photo that any revision shows has a live row and its object, with cleanups interleaved anywhere. */
  lemma {:induction false} ShownPhotosAreKept(steps: seq<Step>, i: nat, photo: nat)
    requires i < |Run(Empty, steps).charts| && ShownBy(Run(Empty, steps).charts[i], photo)
    ensures var s := Run(Empty, steps);
            && photo in s.photos && !s.photos[photo].tombstone && s.photos[photo].chart == i
            && photo in s.storage
  {
    EmptyInv();
    RunKeeps(Empty, steps);
    assert ShownOk(Run(Empty, steps), i, photo);
  }

  /** Every row is shown by some revision or is a tombstone, never both. */
  lemma {:induction false} ShownOrTombstone(steps: seq<Step>, photo: nat)
    requires photo in Run(Empty, steps).photos
    ensures var s := Run(Empty, steps); Shown(s.charts, photo) <==> !s.photos[photo].tombstone
  {
    EmptyInv();
    RunKeeps(Empty, steps);
    var s := Run(Empty, steps);
    if i :| 0 <= i < |s.charts| && ShownBy(s.charts[i], photo) { assert ShownOk(s, i, photo); }
  }

  /** Where an object in storage can be found again: a row names it, its upload is unfinished or ended in doubt. */
  predicate Traceable(s: State, photo: nat) {
    && photo in s.uploads
    && (photo in s.photos || Pending(s.uploads[photo]) || s.uploads[photo] == Unknown)
  }

  ghost predicate NothingLost(s: State) {
    && (forall photo :: photo in s.storage ==> Traceable(s, photo))
    && (forall c :: c in s.cleaners && |s.cleaners[c].rows| > 0 && s.cleaners[c].gone ==> s.cleaners[c].rows[0] !in s.storage)
  }

  lemma RowsOfUploads(s: State, now: State)
    requires NothingLost(s) && now == s.(charts := now.charts, photos := now.photos)
    requires now.photos.Keys == s.photos.Keys
    ensures NothingLost(now)
  {
    forall p | p in now.storage ensures Traceable(now, p) {
      assert Traceable(s, p);
    }
  }

  /** An upload's own step: the rows a cleanup has cleared belong to other photos. */
  lemma UploadLosesNothing(s: State, now: State, photo: nat)
    requires Inv(s) && NothingLost(s) && now.cleaners == s.cleaners
    requires photo in s.uploads ==> Pending(s.uploads[photo])
    requires photo !in s.uploads ==> now.storage == s.storage
    requires now.storage <= s.storage + {photo} && (photo in now.storage ==> Traceable(now, photo))
    requires now.uploads == s.uploads[photo := now.At(photo)]
    requires now.photos.Keys <= s.photos.Keys + {photo} && s.photos.Keys <= now.photos.Keys
    requires forall p :: p in s.photos && p != photo ==> now.photos[p] == s.photos[p]
    ensures NothingLost(now)
  {
    forall p | p in now.storage ensures Traceable(now, p) {
      if p != photo { assert Traceable(s, p); }
    }
    forall c | c in now.cleaners && |now.cleaners[c].rows| > 0 && now.cleaners[c].gone
      ensures now.cleaners[c].rows[0] !in now.storage
    {
      assert now.cleaners[c].rows[0] in s.cleaners[c].rows;
    }
  }

  lemma PutLosesNothing(s: State, step: Step)
    requires Inv(s) && NothingLost(s) && (step.DoBegin? || step.DoPut? || step.DoTombstone?)
    ensures NothingLost(Apply(s, step))
  {
    var now := Apply(s, step);
    if now != s {
      assert step.photo in s.storage ==> Traceable(s, step.photo);
      UploadLosesNothing(s, now, step.photo);
    }
  }

  lemma CommitLosesNothing(s: State, photo: nat, outcome: CommitOutcome)
    requires Inv(s) && NothingLost(s)
    ensures NothingLost(CommitUpload(s, photo, outcome))
  {
    var now := CommitUpload(s, photo, outcome);
    if now != s {
      assert photo in s.storage ==> Traceable(s, photo);
      UploadLosesNothing(s, now, photo);
    }
  }

  lemma CleanupLosesNothing(s: State, step: Step)
    requires Inv(s) && NothingLost(s)
    requires step.DoStart? || step.DoRemoveObject? || step.DoDeleteRow?
    ensures NothingLost(Apply(s, step))
  {
    var now := Apply(s, step);
    forall p | p in now.storage ensures Traceable(now, p) {
      assert Traceable(s, p);
    }
  }

  lemma StepLosesNothing(s: State, step: Step)
    requires Inv(s) && NothingLost(s)
    ensures NothingLost(Apply(s, step))
  {
    if step.DoBegin? || step.DoPut? || step.DoTombstone? { PutLosesNothing(s, step); }
    else if step.DoCommit? { CommitLosesNothing(s, step.photo, step.outcome); }
    else if step.DoStart? || step.DoRemoveObject? || step.DoDeleteRow? { CleanupLosesNothing(s, step); }
    else { RowsOfUploads(s, Apply(s, step)); }
  }

  /**
   No object is ever lost: whatever is in storage has a row, or belongs to an upload that is still
   running or ended in doubt. A cleanup in particular drops a row only after its object is gone.
   */
  lemma {:induction false} NoObjectIsLost(steps: seq<Step>, photo: nat)
    requires photo in Run(Empty, steps).storage
    ensures Traceable(Run(Empty, steps), photo)
  {
    RunLosesNothing(steps);
  }

  lemma {:induction false} RunLosesNothing(steps: seq<Step>)
    ensures Inv(Run(Empty, steps)) && NothingLost(Run(Empty, steps))
  {
    EmptyInv();
    RunKeeps(Empty, steps);
    if |steps| > 0 {
      RunLosesNothing(steps[..|steps| - 1]);
      StepLosesNothing(Run(Empty, steps[..|steps| - 1]), steps[|steps| - 1]);
    }
  }

  /** Only the highest revision can be a draft, the current number is the highest, and photos stay within the limit. */
  lemma {:induction false} OnlyLastIsDraft(steps: seq<Step>, i: nat, k: nat)
    requires i < |Run(Empty, steps).charts| && k < |Run(Empty, steps).charts[i].revisions|
    ensures var c := Run(Empty, steps).charts[i];
            && (c.revisions[k].draft ==> k == |c.revisions| - 1) && c.current == |c.revisions|
            && |c.revisions[k].photos| <= MAX_PHOTOS
  {
    EmptyInv();
    RunKeeps(Empty, steps);
    assert ChartOk(Run(Empty, steps).charts[i]);
  }

  /** A reservation has at most one chart. */
  lemma {:induction false} OneChartPerReservation(steps: seq<Step>, i: nat, j: nat)
    requires i < j < |Run(Empty, steps).charts|
    ensures Run(Empty, steps).charts[i].reservation != Run(Empty, steps).charts[j].reservation
  {
    EmptyInv();
    RunKeeps(Empty, steps);
  }

  /** What a step does to a chart: its version grows by one with every change, finalized revisions never change. */
  predicate Evolves(c: Chart, now: Chart) {
    && now.reservation == c.reservation
    && (now == c || now.version == c.version + 1)
    && |c.revisions| <= |now.revisions| <= |c.revisions| + 1
    && forall k :: 0 <= k < |c.revisions| && !c.revisions[k].draft ==> now.revisions[k] == c.revisions[k]
  }

  lemma StepEvolves(s: State, step: Step, i: nat)
    requires Inv(s) && i < |s.charts|
    ensures i < |Apply(s, step).charts| && Evolves(s.charts[i], Apply(s, step).charts[i])
  {
    assert ChartOk(s.charts[i]);
  }

  /** Finalized revisions and the photos they show are the same in every later state. */
  lemma {:induction false} FinalizedForGood(s: State, steps: seq<Step>, i: nat, k: nat)
    requires Inv(s) && i < |s.charts| && k < |s.charts[i].revisions| && !s.charts[i].revisions[k].draft
    ensures var now := Run(s, steps);
            && i < |now.charts| && k < |now.charts[i].revisions| && now.charts[i].revisions[k] == s.charts[i].revisions[k]
            && now.charts[i].version >= s.charts[i].version
  {
    if |steps| > 0 {
      var before := Run(s, steps[..|steps| - 1]);
      FinalizedForGood(s, steps[..|steps| - 1], i, k);
      RunKeeps(s, steps[..|steps| - 1]);
      StepEvolves(before, steps[|steps| - 1], i);
    }
  }

  /** A tombstone stays one, or its row goes for good; either way no revision ever shows it again. */
  ghost predicate Buried(s: State, photo: nat) {
    && photo in s.uploads && !Pending(s.uploads[photo])
    && (photo in s.photos ==> s.photos[photo].tombstone)
  }

  lemma BuriedNotShown(s: State, photo: nat)
    requires Inv(s) && Buried(s, photo)
    ensures !Shown(s.charts, photo)
  {
    forall i | 0 <= i < |s.charts| ensures !ShownBy(s.charts[i], photo) {
      ShownHasRow(s, i, photo);
    }
  }

  lemma StaysBuried(s: State, photo: nat, step: Step)
    requires Inv(s) && Buried(s, photo)
    ensures Buried(Apply(s, step), photo)
  {
  }

  lemma {:induction false} TombstoneForGood(s: State, steps: seq<Step>, photo: nat)
    requires Inv(s) && photo in s.photos && s.photos[photo].tombstone
    ensures var now := Run(s, steps);
            && !Shown(now.charts, photo) && (photo in now.photos ==> now.photos[photo].tombstone)
  {
    assert Buried(s, photo);
    BuriedForGood(s, steps, photo);
    BuriedNotShown(Run(s, steps), photo);
  }

  lemma {:induction false} BuriedForGood(s: State, steps: seq<Step>, photo: nat)
    requires Inv(s) && Buried(s, photo)
    ensures Inv(Run(s, steps)) && Buried(Run(s, steps), photo)
  {
    RunKeeps(s, steps);
    if |steps| > 0 {
      BuriedForGood(s, steps[..|steps| - 1], photo);
      StaysBuried(Run(s, steps[..|steps| - 1]), photo, steps[|steps| - 1]);
    }
  }

  // ---- What the chart transactions do ----

  /** A chart's current revision is never missing: it is found exactly at the chart's version. */
  lemma CurrentIff(s: State, id: nat, version: int)
    requires Inv(s)
    ensures FindCurrent(s, id, version).Success? <==> id < |s.charts| && s.charts[id].version == version
  {
    if id < |s.charts| { assert ChartOk(s.charts[id]); }
  }

  lemma ShownByItsChart(s: State, i: nat, photo: nat)
    requires Inv(s) && i < |s.charts|
    ensures ShownBy(s.charts[i], photo) ==> photo in s.photos && s.photos[photo].chart == i && !s.photos[photo].tombstone
  {
    if ShownBy(s.charts[i], photo) { assert ShownOk(s, i, photo); }
  }

  function LastOf(c: Chart): Revision
    requires |c.revisions| > 0
  {
    c.revisions[|c.revisions| - 1]
  }

  predicate HasDraft(s: State, id: nat) {
    id < |s.charts| && |s.charts[id].revisions| > 0 && LastOf(s.charts[id]).draft
  }

  /** Nothing but chart `id`, at a version one higher, and the photo rows may differ. */
  predicate OnlyChart(s: State, now: State, id: nat) {
    && id < |s.charts| == |now.charts| && now == s.(charts := s.charts[id := now.charts[id]], photos := now.photos)
    && now.charts[id].version == s.charts[id].version + 1 && now.charts[id].reservation == s.charts[id].reservation
  }

  /** Saving changes the last revision's content only: the same photos are shown, and the old version is used up. */
  lemma SavingChangesTheLastContent(s: State, id: nat, version: int, content: Content, photo: nat)
    requires Inv(s)
    ensures UpdateDraft(s, id, version, content).Success? <==> HasDraft(s, id) && s.charts[id].version == version
    ensures UpdateDraft(s, id, version, content).Success? ==>
              var now := UpdateDraft(s, id, version, content).value;
              && OnlyChart(s, now, id) && now.photos == s.photos
              && var c := s.charts[id];
              && now.charts[id].revisions == c.revisions[|c.revisions| - 1 := LastOf(c).(content := content)]
              && Shown(now.charts, photo) == Shown(s.charts, photo)
              && UpdateDraft(now, id, version, content).Failure?
  {
    CurrentIff(s, id, version);
    if UpdateDraft(s, id, version, content).Success? {
      CurrentRevision(s, id, version);
      var c := s.charts[id];
      assert Rewrite(c, LastOf(c)).revisions == c.revisions;
      RewriteShows(c, LastOf(c).(content := content), photo);
      RewriteShows(c, LastOf(c), photo);
      SameShown(s.charts, id, Rewrite(c, LastOf(c).(content := content)), photo);
    }
  }

  /** A finalized chart takes no change at any version; the only way on is an amendment. */
  lemma FinalizingFreezes(s: State, id: nat, version: int, later: int, content: Content, photo: nat)
    requires Inv(s) && Finalize(s, id, version).Success?
    ensures var now := Finalize(s, id, version).value;
            && OnlyChart(s, now, id) && now.photos == s.photos
            && |LastOf(s.charts[id]).content.performed| > 0
            && (forall k :: 0 <= k < |now.charts[id].revisions| ==> !now.charts[id].revisions[k].draft)
            && UpdateDraft(now, id, later, content).Failure? && Finalize(now, id, later).Failure?
            && AddPhoto(now, id, later, photo).Failure? && RemovePhoto(now, id, later, photo).Failure?
            && (Amend(now, id, later).Success? <==> later == version + 1)
  {
    CurrentRevision(s, id, version);
    RewriteKeeps(s, id, version, LastOf(s.charts[id]).(draft := false));
    CurrentIff(Finalize(s, id, version).value, id, later);
  }

  /** An amendment adds one draft that starts as a copy of the finalized revision; a second one has to wait. */
  lemma AmendmentCopiesTheFinal(s: State, id: nat, version: int, later: int, photo: nat)
    requires Inv(s) && Amend(s, id, version).Success?
    ensures var now := Amend(s, id, version).value;
            && OnlyChart(s, now, id) && now.photos == s.photos
            && var before, after := s.charts[id].revisions, now.charts[id].revisions;
            && |after| == |before| + 1 && after[..|before|] == before
            && after[|before|].draft && after[|before|].content == before[|before| - 1].content
            && after[|before|].photos == before[|before| - 1].photos
            && Shown(now.charts, photo) == Shown(s.charts, photo)
            && Amend(now, id, later).Failure?
  {
    CurrentRevision(s, id, version);
    AmendKeeps(s, id, version);
    var now := Amend(s, id, version).value;
    var c, c2 := s.charts[id], now.charts[id];
    if k :| 0 <= k < |c.revisions| && photo in c.revisions[k].photos { assert photo in c2.revisions[k].photos; }
    if k :| 0 <= k < |c2.revisions| && photo in c2.revisions[k].photos {
      assert photo in c.revisions[if k < |c.revisions| then k else k - 1].photos;
    }
    SameShown(s.charts, id, c2, photo);
    CurrentIff(now, id, later);
  }

  /** Some revision other than the last shows the photo. */
  predicate ShownEarlier(c: Chart, photo: nat) {
    exists k :: 0 <= k < |c.revisions| - 1 && photo in c.revisions[k].photos
  }

  /** Detaching hides a photo from the draft; its row becomes a tombstone exactly when no earlier revision shows it. */
  lemma DetachingBuriesIff(s: State, id: nat, version: int, photo: nat)
    requires Inv(s) && RemovePhoto(s, id, version, photo).Success?
    ensures var now := RemovePhoto(s, id, version, photo).value;
            && OnlyChart(s, now, id) && photo in s.photos && now.photos.Keys == s.photos.Keys
            && var c := s.charts[id];
            && now.charts[id].revisions == c.revisions[|c.revisions| - 1 := LastOf(c).(photos := LastOf(c).photos - {photo})]
            && (now.photos[photo].tombstone <==> !ShownEarlier(c, photo))
            && (forall p :: p in s.photos && p != photo ==> now.photos[p] == s.photos[p])
  {
    CurrentRevision(s, id, version);
    var now := RemovePhoto(s, id, version, photo).value;
    var c := s.charts[id];
    assert photo in LastOf(c).photos && ShownBy(c, photo);
    assert ShownOk(s, id, photo);
    RewriteShows(c, LastOf(c).(photos := LastOf(c).photos - {photo}), photo);
    if ShownEarlier(c, photo) {
      assert ShownBy(now.charts[id], photo);
    }
    forall i | 0 <= i < |now.charts| && i != id ensures !ShownBy(now.charts[i], photo) {
      ShownByItsChart(s, i, photo);
    }
  }

  /** A photo that an amendment took over from the finalized revision is never buried by detaching it again. */
  lemma InheritedPhotoSurvives(s: State, id: nat, version: int, photo: nat)
    requires Inv(s) && Amend(s, id, version).Success?
    requires RemovePhoto(Amend(s, id, version).value, id, version + 1, photo).Success?
    ensures var now := RemovePhoto(Amend(s, id, version).value, id, version + 1, photo).value;
            photo in now.photos && !now.photos[photo].tombstone && ShownEarlier(now.charts[id], photo)
  {
    AmendKeeps(s, id, version);
    CurrentRevision(s, id, version);
    var amended := Amend(s, id, version).value;
    var c := amended.charts[id];
    DetachingBuriesIff(amended, id, version + 1, photo);
    assert photo in c.revisions[|c.revisions| - 2].photos;
    var now := RemovePhoto(amended, id, version + 1, photo).value.charts[id];
    assert photo in now.revisions[|c.revisions| - 2].photos;
  }

  /** Attaching a new photo and detaching it again leaves the revisions as they were, and a tombstone to collect. */
  lemma AttachDetach(s: State, id: nat, version: int, photo: nat)
    requires Inv(s) && photo in s.uploads && s.uploads[photo].Stored? && AddPhoto(s, id, version, photo).Success?
    ensures var attached := AddPhoto(s, id, version, photo).value;
            var detached := RemovePhoto(attached, id, version + 1, photo);
            && OnlyChart(s, attached, id) && photo in LastOf(attached.charts[id]).photos
            && |LastOf(attached.charts[id]).photos| == |LastOf(s.charts[id]).photos| + 1 <= MAX_PHOTOS
            && detached.Success?
            && detached.value.charts[id].revisions == s.charts[id].revisions
            && detached.value.photos == s.photos[photo := Photo(id, true)]
  {
    CurrentRevision(s, id, version);
    PendingNotShown(s, photo);
    var c := s.charts[id];
    var attached := AddPhoto(s, id, version, photo).value;
    assert !ShownBy(c, photo) && photo !in c.revisions[|c.revisions| - 1].photos;
    assert LastOf(c).photos + {photo} - {photo} == LastOf(c).photos;
    var r := LastOf(c).(photos := LastOf(c).photos + {photo});
    assert Rewrite(Rewrite(c, r), LastOf(c)).revisions == c.revisions;
    var back := Rewrite(Rewrite(c, r), LastOf(c));
    SameShown(s.charts, id, back, photo);
    assert attached.charts[id := back] == s.charts[id := back];
    assert !Shown(s.charts[id := back], photo);
  }

  /** A cleanup that has removed an object always deletes its row: nothing can have shown the photo meanwhile. */
  lemma RemovedObjectLosesItsRow(s: State, cleaner: nat)
    requires Inv(s) && cleaner in s.cleaners && |s.cleaners[cleaner].rows| > 0 && s.cleaners[cleaner].gone
    ensures s.cleaners[cleaner].rows[0] !in DeleteRow(s, cleaner).photos
  {
    var photo := s.cleaners[cleaner].rows[0];
    assert photo in s.photos ==> s.photos[photo].tombstone;
    forall i | 0 <= i < |s.charts| ensures !ShownBy(s.charts[i], photo) {
      ShownByItsChart(s, i, photo);
    }
  }

  // ---- One cleanup, uninterrupted ----

  /** The tables a cleanup works on. */
  class Collector {
    var charts: seq<Chart>
    var photos: map<nat, Photo>
    var storage: set<nat>

    constructor (s: State)
      ensures charts == s.charts && photos == s.photos && storage == s.storage
    {
      charts, photos, storage := s.charts, s.photos, s.storage;
    }

    predicate Waiting(photo: nat)
      reads this
    {
      photo in photos && photos[photo].tombstone && !Shown(charts, photo)
    }

    /**
     Visits the rows that were read: those whose object removal fails stay as they are, all others
     lose their object and then their row. Nothing else is touched.
     */
    method Cleanup(rows: seq<nat>, failing: set<nat>) returns (removed: nat, pending: nat)
      requires forall i, j :: 0 <= i < j < |rows| ==> rows[i] != rows[j]
      requires forall i :: 0 <= i < |rows| ==> Waiting(rows[i])
      modifies this`photos, this`storage
      ensures removed + pending == |rows| && pending == Failures(rows, failing)
      ensures photos == old(photos) - Cleared(rows, failing)
      ensures storage == old(storage) - Cleared(rows, failing)
    {
      removed, pending := 0, 0;
      for k := 0 to |rows|
        invariant removed + pending == k && pending == Failures(rows[..k], failing)
        invariant photos == old(photos) - Cleared(rows[..k], failing)
        invariant storage == old(storage) - Cleared(rows[..k], failing)
      {
        ClearedStep(rows, failing, k);
        var id := rows[k];
        if id in failing {
          pending := pending + 1;
        } else {
          storage := storage - {id};
          if Waiting(id) {
            photos := photos - {id};
            removed := removed + 1;
          }
        }
      }
      assert rows[..|rows|] == rows;
    }
  }

  function Failures(rows: seq<nat>, failing: set<nat>): nat {
    if |rows| == 0 then 0 else Failures(rows[..|rows| - 1], failing) + (if rows[|rows| - 1] in failing then 1 else 0)
  }

  function Cleared(rows: seq<nat>, failing: set<nat>): (c: set<nat>)
    ensures forall x :: x in c <==> x in rows && x !in failing
  {
    set x | x in rows && x !in failing
  }

  lemma {:induction false} ClearedStep(rows: seq<nat>, failing: set<nat>, k: nat)
    requires forall i, j :: 0 <= i < j < |rows| ==> rows[i] != rows[j]
    requires k < |rows|
    ensures rows[k] !in Cleared(rows[..k], failing)
    ensures Cleared(rows[..k + 1], failing) == Cleared(rows[..k], failing) + (if rows[k] in failing then {} else {rows[k]})
    ensures Failures(rows[..k + 1], failing) == Failures(rows[..k], failing) + (if rows[k] in failing then 1 else 0)
  {
    assert rows[..k + 1] == rows[..k] + [rows[k]];
  }
}
