/** The record stores: brand profiles (both generations) and the video
    history. A table is its rows in row-id order; a new row gets the largest
    id plus one, as SQLite assigns an `INTEGER PRIMARY KEY` that is not
    given. Sessions, commits and refreshes are not modelled: each operation
    is one transaction that either applies or raises. */
module Stores {
  import opened Wrappers

  // ---------------------------------------------------------------------
  // Tables
  // ---------------------------------------------------------------------

  datatype Row<T> = Row(id: int, data: T)

  /** Rows are kept in increasing id order, so ids are unique. */
  predicate IdsIncreasing<T>(t: seq<Row<T>>) {
    forall i, j :: 0 <= i < j < |t| ==> t[i].id < t[j].id
  }

  /** The row with id `id`, if any (`session.get`). */
  function Find<T>(t: seq<Row<T>>, id: int): (r: Option<T>)
    ensures r.Some? <==> exists i :: 0 <= i < |t| && t[i].id == id
    ensures r.Some? ==> exists i :: 0 <= i < |t| && t[i] == Row(id, r.value)
  {
    if |t| == 0 then None
    else if t[0].id == id then Some(t[0].data)
    else
      var r := Find(t[1..], id);
      assert forall i :: 1 <= i < |t| ==> t[i] == t[1..][i - 1];
      r
  }

  /** In an id-ordered table a found row is the one at its position. */
  lemma {:induction false} FindAt<T>(t: seq<Row<T>>, i: nat)
    requires IdsIncreasing(t) && i < |t|
    ensures Find(t, t[i].id) == Some(t[i].data)
  {
    if i > 0 {
      assert t[1..][i - 1] == t[i];
      FindAt(t[1..], i - 1);
    }
  }

  /** The id SQLite gives the next row. */
  function NewId<T>(t: seq<Row<T>>): (id: int)
    ensures IdsIncreasing(t) ==> forall i :: 0 <= i < |t| ==> t[i].id < id
  {
    if |t| == 0 then 1 else t[|t| - 1].id + 1
  }

  /** Appending a row under a fresh id keeps the table ordered, makes the
      row retrievable, and leaves every other id's row as it was. */
  lemma Appended<T>(t: seq<Row<T>>, x: T)
    requires IdsIncreasing(t)
    ensures IdsIncreasing(t + [Row(NewId(t), x)])
    ensures Find(t + [Row(NewId(t), x)], NewId(t)) == Some(x)
    ensures forall k :: k != NewId(t) ==> Find(t + [Row(NewId(t), x)], k) == Find(t, k)
  {
    var t2 := t + [Row(NewId(t), x)];
    FindAt(t2, |t|);
    forall k | k != NewId(t)
      ensures Find(t2, k) == Find(t, k)
    {
      FindSnocOther(t, Row(NewId(t), x), k);
    }
  }

  lemma {:induction false} FindSnocOther<T>(t: seq<Row<T>>, r: Row<T>, k: int)
    requires r.id != k
    ensures Find(t + [r], k) == Find(t, k)
  {
    if |t| > 0 {
      assert (t + [r])[1..] == t[1..] + [r];
      FindSnocOther(t[1..], r, k);
    }
  }

  /** The table without the row `id` (`session.delete`). */
  function Remove<T>(t: seq<Row<T>>, id: int): (r: seq<Row<T>>)
    ensures |r| <= |t|
    ensures forall i :: 0 <= i < |r| ==> r[i].id != id && r[i] in t
  {
    if |t| == 0 then []
    else (if t[0].id == id then [] else [t[0]]) + Remove(t[1..], id)
  }

  /** Removing a row keeps the order, removes exactly that id, and leaves
      every other id's row as it was. */
  lemma Removed<T>(t: seq<Row<T>>, id: int)
    requires IdsIncreasing(t)
    ensures IdsIncreasing(Remove(t, id))
    ensures Find(Remove(t, id), id) == None
    ensures forall k :: k != id ==> Find(Remove(t, id), k) == Find(t, k)
  {
    RemovedOrdered(t, id);
    forall k | k != id
      ensures Find(Remove(t, id), k) == Find(t, k)
    {
      RemovedKeeps(t, id, k);
    }
  }

  lemma {:induction false} RemovedOrdered<T>(t: seq<Row<T>>, id: int)
    requires IdsIncreasing(t)
    ensures IdsIncreasing(Remove(t, id))
  {
    if |t| > 0 {
      assert IdsIncreasing(t[1..]);
      RemovedOrdered(t[1..], id);
      var rest := Remove(t[1..], id);
      forall i | 0 <= i < |rest|
        ensures t[0].id < rest[i].id
      {
        var j :| 0 <= j < |t[1..]| && t[1..][j] == rest[i];
        assert t[1..][j] == t[j + 1];
      }
    }
  }

  lemma {:induction false} RemovedKeeps<T>(t: seq<Row<T>>, id: int, k: int)
    requires k != id
    ensures Find(Remove(t, id), k) == Find(t, k)
  {
    if |t| > 0 {
      RemovedKeeps(t[1..], id, k);
      var rest := Remove(t[1..], id);
      if t[0].id == id {
        assert Remove(t, id) == rest;
        assert Find(t, k) == Find(t[1..], k);
      } else {
        var u := [t[0]] + rest;
        assert Remove(t, id) == u;
        assert u[0] == t[0] && u[1..] == rest;
      }
    }
  }

  /** The table with the data of row `id` replaced. */
  function Replace<T>(t: seq<Row<T>>, id: int, x: T): (r: seq<Row<T>>)
    ensures |r| == |t|
    ensures forall i :: 0 <= i < |t| ==> r[i] == (if t[i].id == id then Row(id, x) else t[i])
  {
    seq(|t|, (i: int) requires 0 <= i < |t| => if t[i].id == id then Row(id, x) else t[i])
  }

  /** Replacing a present row makes the new data the row's; other ids are
      untouched. */
  lemma {:induction false} Replaced<T>(t: seq<Row<T>>, id: int, x: T, k: int)
    ensures Find(Replace(t, id, x), k) == (if k == id && Find(t, id).Some? then Some(x) else Find(t, k))
  {
    if |t| > 0 {
      Replaced(t[1..], id, x, k);
      assert Replace(t, id, x)[1..] == Replace(t[1..], id, x);
    }
  }

  /** Truthiness of a column value: set and non-empty. */
  predicate Truthy(v: Option<string>) {
    v.Some? && |v.value| > 0
  }

  // ---------------------------------------------------------------------
  // Profiles
  // ---------------------------------------------------------------------

  /** The profile columns other than the id; both generations use these. */
  const ProfileColumns: set<string> := {
    "name", "one_sentence_summary", "detailed_description", "target_audience", "brand_color", "slogan"
  }

  /** A profile row: a value, or NULL, per column. */
  type Profile = map<string, Option<string>>

  type ProfileTable = seq<Row<Profile>>

  /** The unique `name` is taken by a row other than `except`. */
  predicate NameTaken(t: ProfileTable, name: string, except: int) {
    exists i :: 0 <= i < |t| && t[i].id != except && "name" in t[i].data && t[i].data["name"] == Some(name)
  }

  const NotNullName: string := "IntegrityError: NOT NULL constraint failed: name"
  const UniqueName: string := "IntegrityError: UNIQUE constraint failed: name"
  const UnknownColumn: string := "TypeError: invalid keyword argument for Profile"

  /** The commit of a row: `name` must be set and not used by another row. */
  function CommitProfile(t: ProfileTable, id: int, p: Profile): (r: Option<string>)
    ensures r.None? <==> "name" in p && p["name"].Some? && !NameTaken(t, p["name"].value, id)
  {
    if "name" !in p || p["name"].None? then Some(NotNullName)
    else if NameTaken(t, p["name"].value, id) then Some(UniqueName)
    else None
  }

  /** `create_profile` (both generations): every column comes from the
      arguments or is NULL; an argument that is not a column is rejected by
      the constructor; the commit enforces the `name` constraints. */
  function CreateProfile(t: ProfileTable, kwargs: map<string, Option<string>>): (r: Result<(ProfileTable, int), string>)
    ensures (exists k :: k in kwargs && k !in ProfileColumns) ==> r == Failure(UnknownColumn)
    ensures r.Success? ==>
      |r.value.0| == |t| + 1 && r.value.0[..|t|] == t
      && r.value.0[|t|].id == r.value.1 && r.value.1 == NewId(t)
      && r.value.0[|t|].data.Keys == ProfileColumns
      && (forall c :: c in ProfileColumns ==> r.value.0[|t|].data[c] == (if c in kwargs then kwargs[c] else None))
    ensures r.Success? <==>
      (forall k :: k in kwargs ==> k in ProfileColumns)
      && "name" in kwargs && kwargs["name"].Some? && !NameTaken(t, kwargs["name"].value, NewId(t))
  {
    if exists k :: k in kwargs && k !in ProfileColumns then Failure(UnknownColumn)
    else
      var p := map c | c in ProfileColumns :: if c in kwargs then kwargs[c] else None;
      var id := NewId(t);
      var e := CommitProfile(t, id, p);
      if e.Some? then Failure(e.value)
      else
        assert (t + [Row(id, p)])[..|t|] == t;
        Success((t + [Row(id, p)], id))
  }

  /** A created profile is retrievable under the id it was given. */
  lemma CreatedProfileRetrievable(t: ProfileTable, kwargs: map<string, Option<string>>)
    requires IdsIncreasing(t)
    requires CreateProfile(t, kwargs).Success?
    ensures var r := CreateProfile(t, kwargs).value;
      IdsIncreasing(r.0) && Find(r.0, r.1).Some?
      && forall c :: c in kwargs ==> Find(r.0, r.1).value[c] == kwargs[c]
  {
    var r := CreateProfile(t, kwargs).value;
    assert r.0 == t + [Row(NewId(t), r.0[|t|].data)];
    Appended(t, r.0[|t|].data);
  }

  /** Which arguments an update writes: all of them (the first generation),
      or only the truthy ones (the second). */
  datatype UpdateRule = SetEvery | SetTruthy

  function Updated(rule: UpdateRule, prev: Profile, kwargs: map<string, Option<string>>): (p: Profile)
    ensures p.Keys == ProfileColumns
    ensures forall c :: c in ProfileColumns ==>
      p[c] == (if c in kwargs && (rule.SetEvery? || Truthy(kwargs[c])) then kwargs[c]
               else if c in prev then prev[c] else None)
  {
    map c | c in ProfileColumns ::
      if c in kwargs && (rule.SetEvery? || Truthy(kwargs[c])) then kwargs[c]
      else if c in prev then prev[c] else None
  }

  /** `update_profile`: an unknown id returns None and changes nothing;
      otherwise the row is rewritten per the rule (arguments that are not
      columns never reach the row) and committed. */
  function UpdateProfileWith(rule: UpdateRule, t: ProfileTable, id: int, kwargs: map<string, Option<string>>)
    : (r: Result<(ProfileTable, Option<Profile>), string>)
    ensures Find(t, id).None? ==> r == Success((t, None))
    ensures Find(t, id).Some? ==>
      var p := Updated(rule, Find(t, id).value, kwargs);
      (r.Success? <==> CommitProfile(t, id, p).None?)
      && (r.Success? ==> r.value == (Replace(t, id, p), Some(p)))
      && (r.Failure? ==> r.error == CommitProfile(t, id, p).value)
  {
    var prev := Find(t, id);
    if prev.None? then Success((t, None))
    else
      var p := Updated(rule, prev.value, kwargs);
      var e := CommitProfile(t, id, p);
      if e.Some? then Failure(e.value) else Success((Replace(t, id, p), Some(p)))
  }

  /** After a successful update the row holds the updated data and every
      other row is as it was. */
  lemma UpdateVisible(rule: UpdateRule, t: ProfileTable, id: int, kwargs: map<string, Option<string>>, k: int)
    requires Find(t, id).Some? && UpdateProfileWith(rule, t, id, kwargs).Success?
    ensures var t2 := UpdateProfileWith(rule, t, id, kwargs).value.0;
      Find(t2, k) == (if k == id then Some(Updated(rule, Find(t, id).value, kwargs)) else Find(t, k))
  {
    Replaced(t, id, Updated(rule, Find(t, id).value, kwargs), k);
  }

  /** The second generation's `update_profile`. */
  function UpdateProfile(t: ProfileTable, id: int, kwargs: map<string, Option<string>>)
    : Result<(ProfileTable, Option<Profile>), string> {
    UpdateProfileWith(SetTruthy, t, id, kwargs)
  }

  /** The first generation's `update_profile`. */
  function UpdateProfileV1(t: ProfileTable, id: int, kwargs: map<string, Option<string>>)
    : Result<(ProfileTable, Option<Profile>), string> {
    UpdateProfileWith(SetEvery, t, id, kwargs)
  }

  /** The two generations differ exactly on falsy arguments: the second
      keeps the old value where the first writes NULL or "". */
  lemma UpdateRulesDiffer(prev: Profile, kwargs: map<string, Option<string>>, c: string)
    requires c in ProfileColumns && c in kwargs
    ensures Updated(SetEvery, prev, kwargs)[c] == kwargs[c]
    ensures Updated(SetTruthy, prev, kwargs)[c] == (if Truthy(kwargs[c]) then kwargs[c] else if c in prev then prev[c] else None)
  {
  }

  /** Clearing the name is ignored by the second generation and rejected by
      the first. */
  lemma ClearingNameDiffers(t: ProfileTable, id: int)
    requires Find(t, id).Some?
    requires var p := Find(t, id).value; "name" in p && p["name"].Some? && !NameTaken(t, p["name"].value, id)
    ensures UpdateProfileV1(t, id, map["name" := None]) == Failure(NotNullName)
    ensures UpdateProfile(t, id, map["name" := None]).Success?
  {
  }

  /** `delete_profile` and `delete_video_record`: False when absent,
      otherwise True with the row gone. */
  function Delete<T>(t: seq<Row<T>>, id: int): (r: (seq<Row<T>>, bool))
    ensures r.1 <==> Find(t, id).Some?
    ensures !r.1 ==> r.0 == t
    ensures r.1 ==> r.0 == Remove(t, id)
  {
    if Find(t, id).None? then (t, false) else (Remove(t, id), true)
  }

  // ---------------------------------------------------------------------
  // Video history
  // ---------------------------------------------------------------------

  /** A video-history row. */
  datatype VideoRecord = VideoRecord(
    createdAt: int,
    topic: string,
    videoType: string,
    durationSeconds: int,
    orientation: string,
    modelProvider: string,
    imageProvider: string,
    voiceActor: string,
    videoPath: Option<string>,
    script: Option<string>,
    goal: Option<string>)

  /** The arguments of `save_video_record`: any may be missing. */
  datatype VideoInput = VideoInput(
    createdAt: Option<int>,
    topic: Option<string>,
    videoType: Option<string>,
    durationSeconds: Option<int>,
    orientation: Option<string>,
    modelProvider: Option<string>,
    imageProvider: Option<string>,
    voiceActor: Option<string>,
    videoPath: Option<string>,
    script: Option<string>,
    goal: Option<string>)

  predicate RequiredGiven(v: VideoInput) {
    v.topic.Some? && v.videoType.Some? && v.durationSeconds.Some? && v.orientation.Some?
    && v.modelProvider.Some? && v.imageProvider.Some? && v.voiceActor.Some?
  }

  type VideoTable = seq<Row<VideoRecord>>

  /** `save_video_record`: the non-nullable columns must be given; the
      creation time defaults to `now`. */
  function SaveVideoRecord(t: VideoTable, v: VideoInput, now: int): (r: Result<(VideoTable, int), string>)
    ensures r.Success? <==> RequiredGiven(v)
    ensures r.Success? ==>
      r.value.1 == NewId(t) && |r.value.0| == |t| + 1 && r.value.0[..|t|] == t
      && r.value.0[|t|].id == NewId(t)
      && r.value.0[|t|].data.createdAt == v.createdAt.GetOr(now)
      && r.value.0[|t|].data.topic == v.topic.value
      && r.value.0[|t|].data.videoPath == v.videoPath
  {
    if !RequiredGiven(v) then Failure("IntegrityError: NOT NULL constraint failed")
    else
      var rec := VideoRecord(v.createdAt.GetOr(now), v.topic.value, v.videoType.value, v.durationSeconds.value,
                             v.orientation.value, v.modelProvider.value, v.imageProvider.value, v.voiceActor.value,
                             v.videoPath, v.script, v.goal);
      var id := NewId(t);
      assert (t + [Row(id, rec)])[..|t|] == t;
      Success((t + [Row(id, rec)], id))
  }

  /** Newest first. */
  predicate NewestFirst(s: VideoTable) {
    forall i, j :: 0 <= i < j < |s| ==> s[i].data.createdAt >= s[j].data.createdAt
  }

  /** Places `x` into a newest-first list after every row at least as new. */
  function Insert(x: Row<VideoRecord>, s: VideoTable): (r: VideoTable)
    ensures |r| == |s| + 1
    ensures multiset(r) == multiset(s) + multiset{x}
  {
    if |s| == 0 || s[0].data.createdAt < x.data.createdAt then [x] + s
    else
      assert s == [s[0]] + s[1..];
      [s[0]] + Insert(x, s[1..])
  }

  lemma {:induction false} InsertSorted(x: Row<VideoRecord>, s: VideoTable)
    requires NewestFirst(s)
    ensures NewestFirst(Insert(x, s))
  {
    if |s| > 0 && s[0].data.createdAt >= x.data.createdAt {
      assert NewestFirst(s[1..]);
      InsertSorted(x, s[1..]);
      var r := Insert(x, s);
      var tail := Insert(x, s[1..]);
      assert r == [s[0]] + tail;
      forall i | 1 <= i < |r|
        ensures s[0].data.createdAt >= r[i].data.createdAt
      {
        assert r[i] in multiset(tail);
        assert r[i] in multiset(s[1..]) + multiset{x};
        if r[i] in multiset(s[1..]) {
          var k :| 0 <= k < |s[1..]| && s[1..][k] == r[i];
          assert s[1..][k] == s[k + 1];
        }
      }
    }
  }

  /** `get_all_videos`: every row once, newest first. */
  function GetAllVideos(t: VideoTable): (r: VideoTable)
    ensures multiset(r) == multiset(t)
  {
    if |t| == 0 then []
    else
      assert t == [t[0]] + t[1..];
      Insert(t[0], GetAllVideos(t[1..]))
  }

  lemma {:induction false} GetAllVideosNewestFirst(t: VideoTable)
    ensures NewestFirst(GetAllVideos(t))
    ensures |GetAllVideos(t)| == |t|
  {
    if |t| > 0 {
      GetAllVideosNewestFirst(t[1..]);
      InsertSorted(t[0], GetAllVideos(t[1..]));
    }
  }
}
