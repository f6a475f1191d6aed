/**
 The storage targets of an account deletion: which paths a claimed lease may name, and how they
 are grouped and batched for removal.
 */
module CleanupTargets {
  import opened Wrappers

  // ---------------------------------------------------------------- identifiers and paths

  predicate HexDigit(c: char) {
    '0' <= c <= '9' || 'a' <= c <= 'f' || 'A' <= c <= 'F'
  }

  /** The text form 8-4-4-4-12 of versions 1 to 5 of the RFC variant. */
  predicate IsUuid(s: string) {
    && |s| == 36
    && (forall i :: 0 <= i < 36 ==> if i in {8, 13, 18, 23} then s[i] == '-' else HexDigit(s[i]))
    && '1' <= s[14] <= '5' && s[19] in {'8', '9', 'a', 'b', 'A', 'B'}
  }

  /** White space that String.prototype.trim removes. */
  predicate Blank(c: char) {
    || '\t' <= c <= '\r' || c in {' ', '\U{A0}', '\U{1680}', '\U{2028}', '\U{2029}', '\U{202F}', '\U{205F}', '\U{3000}', '\U{FEFF}'}
    || '\U{2000}' <= c <= '\U{200A}'
  }

  predicate Contains(s: string, part: string) {
    |part| <= |s| && (s[..|part|] == part || (s != [] && Contains(s[1..], part)))
  }

  function Split(path: string): (segments: seq<string>)
    ensures segments != []
  {
    if path == [] then [""]
    else
      var rest := Split(path[1..]);
      if path[0] == '/' then [""] + rest else [[path[0]] + rest[0]] + rest[1..]
  }

  /** Relative, trimmed, without control characters, and with ordinary segments only. */
  predicate IsCanonicalPath(path: string) {
    && 0 < |path| <= 1024
    && !Blank(path[0]) && !Blank(path[|path| - 1])
    && path[0] != '/' && path[|path| - 1] != '/'
    && '\\' !in path && !Contains(path, "://")
    && (forall i :: 0 <= i < |path| ==> path[i] >= ' ' && path[i] != '\U{7F}')
    && forall segment :: segment in Split(path) ==> segment != "" && segment != "." && segment != ".."
  }

  lemma {:induction false} SplitPrefix(a: string, rest: string)
    requires '/' !in a
    ensures Split(a + "/" + rest) == [a] + Split(rest)
    decreases |a|
  {
    var path := a + "/" + rest;
    if a == [] {
      assert path[1..] == rest;
    } else {
      SplitPrefix(a[1..], rest);
      assert path[1..] == a[1..] + "/" + rest;
      assert [a[0]] + a[1..] == a;
    }
  }

  lemma UuidHasNoSlash(s: string)
    requires IsUuid(s)
    ensures '/' !in s
  {
    forall i | 0 <= i < 36
      ensures s[i] != '/'
    {
      assert HexDigit(s[i]) || s[i] == '-';
    }
  }

  // ---------------------------------------------------------------- parsing the targets

  datatype Target = Target(bucket: string, path: string)

  /** One claimed item; None stands for a field that is missing or not a string. */
  datatype RawTarget = NotAnObject | RawTarget(bucket: Option<string>, path: Option<string>)

  predicate StartsWith(s: string, prefix: string) {
    |prefix| <= |s| && s[..|prefix|] == prefix
  }

  function ParseTarget(raw: RawTarget, userId: string): Result<Target, string> {
    if raw.NotAnObject? then Err("invalid account deletion cleanup RPC response")
    else if raw.bucket.None? || raw.bucket.value !in {"dolls", "highlights", "avatars"}
            || raw.path.None? || !IsCanonicalPath(raw.path.value) then
      Err("invalid account cleanup target")
    else
      var bucket, path := raw.bucket.value, raw.path.value;
      if bucket == "dolls" && !StartsWith(path, userId + "/") && !StartsWith(path, "tmp/face/" + userId + "/") then
        Err("invalid account cleanup doll target")
      else if bucket == "avatars" && !StartsWith(path, userId + "/") then
        Err("invalid account cleanup avatar target")
      else if bucket == "highlights" && ('/' !in path || !IsUuid(Split(path)[0])) then
        Err("invalid account cleanup highlight target")
      else Ok(Target(bucket, path))
  }

  function ParseEach(raw: seq<RawTarget>, userId: string): Result<seq<Target>, string> {
    if raw == [] then Ok([])
    else
      var first := ParseTarget(raw[0], userId);
      if first.Err? then Err(first.error)
      else
        var rest := ParseEach(raw[1..], userId);
        if rest.Err? then rest else Ok([first.value] + rest.value)
  }

  function Key(t: Target): string {
    t.bucket + "/" + t.path
  }

  predicate DistinctKeys(ts: seq<Target>) {
    forall i, k :: 0 <= i < k < |ts| ==> Key(ts[i]) != Key(ts[k])
  }

  /** `raw` is None when the claim carries no array. */
  function ParseCleanupTargets(raw: Option<seq<RawTarget>>, userId: string): Result<seq<Target>, string> {
    if raw.None? || |raw.value| > 100 then Err("invalid account cleanup targets")
    else
      var targets := ParseEach(raw.value, userId);
      if targets.Err? then targets
      else if !DistinctKeys(targets.value) then Err("duplicate account cleanup target")
      else targets
  }

  /** Where a target may point: directories of the user, or a directory named by a score id. */
  predicate InOwnDirectory(t: Target, userId: string) {
    var segments := Split(t.path);
    match t.bucket
    case "dolls" => segments[0] == userId || (|segments| > 3 && segments[..3] == ["tmp", "face", userId])
    case "avatars" => segments[0] == userId
    case "highlights" => |segments| > 1 && IsUuid(segments[0])
    case _ => false
  }

  predicate PlainSegments(path: string) {
    forall segment :: segment in Split(path) ==> segment != "" && segment != "." && segment != ".."
  }

  lemma {:induction false} SlashSplits(path: string)
    requires '/' in path
    ensures |Split(path)| > 1
  {
    if path[0] != '/' {
      SlashSplits(path[1..]);
    }
  }

  lemma PrefixIsDirectory(path: string, directory: string)
    requires StartsWith(path, directory + "/") && '/' !in directory
    ensures Split(path)[0] == directory
  {
    var rest := path[|directory| + 1..];
    assert path == directory + "/" + rest;
    SplitPrefix(directory, rest);
  }

  lemma FacePrefixIsDirectory(path: string, userId: string)
    requires StartsWith(path, "tmp/face/" + userId + "/") && '/' !in userId
    ensures |Split(path)| > 3 && Split(path)[..3] == ["tmp", "face", userId]
  {
    var rest := path[|"tmp/face/" + userId + "/"|..];
    var inner := userId + "/" + rest;
    var middle := "face" + "/" + inner;
    assert path == "tmp" + "/" + middle;
    SplitPrefix("tmp", middle);
    SplitPrefix("face", inner);
    SplitPrefix(userId, rest);
  }

  lemma ParsedTargetIsOwn(raw: RawTarget, userId: string)
    requires IsUuid(userId) && ParseTarget(raw, userId).Ok?
    ensures var t := ParseTarget(raw, userId).value;
            InOwnDirectory(t, userId) && IsCanonicalPath(t.path) && PlainSegments(t.path)
            && t.bucket in {"dolls", "highlights", "avatars"}
  {
    UuidHasNoSlash(userId);
    var path := raw.path.value;
    if StartsWith(path, userId + "/") {
      PrefixIsDirectory(path, userId);
    }
    if StartsWith(path, "tmp/face/" + userId + "/") {
      FacePrefixIsDirectory(path, userId);
    }
    if '/' in path {
      SlashSplits(path);
    }
  }

  predicate OwnTargets(ts: seq<Target>, userId: string) {
    forall i :: 0 <= i < |ts| ==> InOwnDirectory(ts[i], userId) && IsCanonicalPath(ts[i].path)
                                  && ts[i].bucket in {"dolls", "highlights", "avatars"}
  }

  lemma {:induction false} ParsedEachAreOwn(raw: seq<RawTarget>, userId: string)
    requires IsUuid(userId) && ParseEach(raw, userId).Ok?
    ensures |ParseEach(raw, userId).value| == |raw| && OwnTargets(ParseEach(raw, userId).value, userId)
    decreases |raw|
  {
    if raw != [] {
      ParsedTargetIsOwn(raw[0], userId);
      ParsedEachAreOwn(raw[1..], userId);
    }
  }

  /** The key tells bucket and path apart, since no bucket name contains a slash. */
  lemma {:induction false} KeysTellTargetsApart(t: Target, u: Target)
    requires '/' !in t.bucket && '/' !in u.bucket && Key(t) == Key(u)
    ensures t == u
  {
    SplitPrefix(t.bucket, t.path);
    SplitPrefix(u.bucket, u.path);
    assert Split(Key(t))[0] == t.bucket && Split(Key(u))[0] == u.bucket;
    assert t.path == Key(t)[|t.bucket| + 1..] && u.path == Key(u)[|u.bucket| + 1..];
  }

  /** The duplicate check refuses exactly the lists that repeat a target. */
  lemma DuplicatesAreExact(ts: seq<Target>, userId: string)
    requires OwnTargets(ts, userId)
    ensures DistinctKeys(ts) <==> Distinct(ts)
  {
    forall i, k | 0 <= i < k < |ts|
      ensures Key(ts[i]) == Key(ts[k]) <==> ts[i] == ts[k]
    {
      if Key(ts[i]) == Key(ts[k]) {
        KeysTellTargetsApart(ts[i], ts[k]);
      }
    }
  }

  predicate Distinct<T(==)>(s: seq<T>) {
    forall i, k :: 0 <= i < k < |s| ==> s[i] != s[k]
  }

  /**
   Accepted targets lie in the user's own directories or under a score id, never climb out of
   them, and are pairwise different.
   */
  lemma ParsedTargetsAreOwn(raw: Option<seq<RawTarget>>, userId: string)
    requires IsUuid(userId) && ParseCleanupTargets(raw, userId).Ok?
    ensures var ts := ParseCleanupTargets(raw, userId).value;
            |ts| <= 100 && OwnTargets(ts, userId) && Distinct(ts)
            && forall i :: 0 <= i < |ts| ==> PlainSegments(ts[i].path)
  {
    ParsedEachAreOwn(raw.value, userId);
    var ts := ParseCleanupTargets(raw, userId).value;
    forall i, k | 0 <= i < k < |ts|
      ensures ts[i] != ts[k]
    {
      assert Key(ts[i]) != Key(ts[k]);
    }
  }

  /** The first segment of a longer path is followed by a slash and the other segments. */
  lemma {:induction false} FirstSegment(path: string)
    requires |Split(path)| > 1
    ensures var first := Split(path)[0];
            StartsWith(path, first + "/") && Split(path[|first| + 1..]) == Split(path)[1..]
    decreases |path|
  {
    if path[0] != '/' {
      FirstSegment(path[1..]);
      var first := Split(path)[0];
      assert first[1..] == Split(path[1..])[0];
      assert path[1..][..|first|] == path[1..|first| + 1];
      assert path[|first| + 1..] == path[1..][|first|..];
    }
  }

  lemma FaceDirectory(userId: string, rest: string)
    ensures StartsWith("tmp" + "/" + ("face" + "/" + (userId + "/" + rest)), "tmp/face/" + userId + "/")
  {
    var path, prefix := "tmp" + "/" + ("face" + "/" + (userId + "/" + rest)), "tmp/face/" + userId + "/";
    assert path == prefix + rest;
  }

  lemma FacePathIsPrefixed(path: string, userId: string)
    requires |Split(path)| > 3 && Split(path)[..3] == ["tmp", "face", userId]
    ensures StartsWith(path, "tmp/face/" + userId + "/")
  {
    var segments := Split(path);
    assert segments[0] == ["tmp", "face", userId][0] && segments[1] == ["tmp", "face", userId][1] && segments[2] == ["tmp", "face", userId][2];
    var middle := Behind(path, "tmp");
    var inner := Behind(middle, "face");
    var rest := Behind(inner, userId);
    FaceDirectory(userId, rest);
  }

  lemma Behind(path: string, first: string) returns (rest: string)
    requires |Split(path)| > 1 && Split(path)[0] == first
    ensures path == first + "/" + rest && Split(rest) == Split(path)[1..]
  {
    FirstSegment(path);
    rest := path[|first| + 1..];
  }

  lemma DirectoryIsPrefix(path: string, userId: string)
    ensures |Split(path)| > 1 && Split(path)[0] == userId ==> StartsWith(path, userId + "/")
    ensures |Split(path)| > 3 && Split(path)[..3] == ["tmp", "face", userId] ==> StartsWith(path, "tmp/face/" + userId + "/")
  {
    if |Split(path)| > 1 && Split(path)[0] == userId {
      FirstSegment(path);
    }
    if |Split(path)| > 3 && Split(path)[..3] == ["tmp", "face", userId] {
      FacePathIsPrefixed(path, userId);
    }
  }

  /** A file below one of the directories that the lease may name. */
  predicate Acceptable(t: Target, userId: string) {
    && t.bucket in {"dolls", "highlights", "avatars"} && IsCanonicalPath(t.path)
    && InOwnDirectory(t, userId) && |Split(t.path)| > 1
  }

  lemma TargetParsedIff(raw: RawTarget, userId: string, t: Target)
    requires IsUuid(userId)
    ensures ParseTarget(raw, userId) == Ok(t) <==> raw == RawTarget(Some(t.bucket), Some(t.path)) && Acceptable(t, userId)
  {
    UuidHasNoSlash(userId);
    DirectoryIsPrefix(t.path, userId);
    if raw == RawTarget(Some(t.bucket), Some(t.path)) && |Split(t.path)| > 1 {
      SplitHasSlash(t.path);
    }
    if ParseTarget(raw, userId) == Ok(t) {
      ParsedTargetIsOwn(raw, userId);
      assert '/' in t.path by {
        if StartsWith(t.path, userId + "/") {
          assert t.path[|userId|] == '/';
        }
        if StartsWith(t.path, "tmp/face/" + userId + "/") {
          assert t.path[3] == ("tmp/face/" + userId + "/")[3] == '/';
        }
      }
      SlashSplits(t.path);
    }
  }

  lemma {:induction false} SplitHasSlash(path: string)
    requires |Split(path)| > 1
    ensures '/' in path
    decreases |path|
  {
    if path[0] != '/' {
      SplitHasSlash(path[1..]);
    }
  }

  lemma {:induction false} EachParsedIff(raw: seq<RawTarget>, userId: string, ts: seq<Target>)
    requires IsUuid(userId)
    ensures ParseEach(raw, userId) == Ok(ts) <==>
              |ts| == |raw| && forall i :: 0 <= i < |raw| ==> raw[i] == RawTarget(Some(ts[i].bucket), Some(ts[i].path)) && Acceptable(ts[i], userId)
    decreases |raw|
  {
    if raw != [] && ts != [] {
      TargetParsedIff(raw[0], userId, ts[0]);
      EachParsedIff(raw[1..], userId, ts[1..]);
      assert ts == [ts[0]] + ts[1..];
      if ParseEach(raw[1..], userId) == Ok(ts[1..]) && ParseTarget(raw[0], userId) == Ok(ts[0]) {
        assert ParseEach(raw, userId) == Ok([ts[0]] + ts[1..]);
      }
    }
  }

  /** Exactly these claims are accepted: at most 100 different files below directories that the lease may name. */
  lemma TargetsParsedIff(raw: seq<RawTarget>, userId: string, ts: seq<Target>)
    requires IsUuid(userId)
    ensures ParseCleanupTargets(Some(raw), userId) == Ok(ts) <==>
              && |ts| == |raw| <= 100 && Distinct(ts)
              && forall i :: 0 <= i < |raw| ==> raw[i] == RawTarget(Some(ts[i].bucket), Some(ts[i].path)) && Acceptable(ts[i], userId)
  {
    EachParsedIff(raw, userId, ts);
    if ParseEach(raw, userId) == Ok(ts) {
      DuplicatesAreExact(ts, userId);
    }
  }

  // ---------------------------------------------------------------- batches

  const BATCH_SIZE: nat := 100

  /** First occurrences only, as spreading a Set gives them. */
  function Unique<T(==)>(s: seq<T>): (u: seq<T>) {
    if s == [] then []
    else
      var before := Unique(s[..|s| - 1]);
      if s[|s| - 1] in before then before else before + [s[|s| - 1]]
  }

  lemma {:induction false} UniqueIsDistinct<T>(s: seq<T>)
    ensures Distinct(Unique(s))
    ensures forall x :: x in Unique(s) <==> x in s
    decreases |s|
  {
    if s != [] {
      UniqueIsDistinct(s[..|s| - 1]);
      assert s == s[..|s| - 1] + [s[|s| - 1]];
    }
  }

  lemma {:induction false} DistinctIsUnique<T>(s: seq<T>)
    requires Distinct(s)
    ensures Unique(s) == s
    decreases |s|
  {
    if s != [] {
      var n := |s| - 1;
      DistinctIsUnique(s[..n]);
      assert s == s[..n] + [s[n]];
    }
  }

  function NonEmpty(paths: seq<string>): seq<string> {
    if paths == [] then []
    else if paths[0] == "" then NonEmpty(paths[1..])
    else [paths[0]] + NonEmpty(paths[1..])
  }

  lemma {:induction false} NonEmptyKeeps(paths: seq<string>)
    requires "" !in paths
    ensures NonEmpty(paths) == paths
    decreases |paths|
  {
    if paths != [] {
      NonEmptyKeeps(paths[1..]);
    }
  }

  function Chunks<T>(s: seq<T>): seq<seq<T>> {
    if s == [] then []
    else if |s| <= BATCH_SIZE then [s]
    else [s[..BATCH_SIZE]] + Chunks(s[BATCH_SIZE..])
  }

  function Concat<T>(parts: seq<seq<T>>): seq<T> {
    if parts == [] then [] else parts[0] + Concat(parts[1..])
  }

  lemma {:induction false} ConcatAppend<T>(a: seq<seq<T>>, b: seq<seq<T>>)
    ensures Concat(a + b) == Concat(a) + Concat(b)
    decreases |a|
  {
    if a == [] {
      assert a + b == b;
    } else {
      ConcatAppend(a[1..], b);
      assert (a + b)[1..] == a[1..] + b;
    }
  }

  lemma {:induction false} ChunksPartition<T>(s: seq<T>)
    ensures Concat(Chunks(s)) == s
    ensures forall c :: c in Chunks(s) ==> 0 < |c| <= 100
    ensures forall i :: 0 <= i < |Chunks(s)| - 1 ==> |Chunks(s)[i]| == 100
    decreases |s|
  {
    if |s| > BATCH_SIZE {
      ChunksPartition(s[BATCH_SIZE..]);
      assert s == s[..BATCH_SIZE] + s[BATCH_SIZE..];
    } else if s != [] {
      assert Concat([s]) == s + Concat([]);
    }
  }

  /** What is left of s from an index on; nothing from its end on. */
  function From<T>(s: seq<T>, index: nat): seq<T> {
    if index < |s| then s[index..] else []
  }

  lemma ChunksStep<T>(s: seq<T>, index: nat)
    requires index < |s|
    ensures var end := if index + BATCH_SIZE < |s| then index + BATCH_SIZE else |s|;
            Chunks(From(s, index)) == [s[index..end]] + Chunks(From(s, index + BATCH_SIZE))
  {
    var rest := s[index..];
    if |rest| > BATCH_SIZE {
      assert rest[..BATCH_SIZE] == s[index..index + BATCH_SIZE] && rest[BATCH_SIZE..] == s[index + BATCH_SIZE..];
    } else {
      assert s[index..|s|] == rest;
      assert [rest] + [] == [rest];
    }
  }

  method StoragePathBatches(paths: seq<string>) returns (batches: seq<seq<string>>)
    ensures batches == Chunks(Unique(NonEmpty(paths)))
  {
    var unique := Unique(NonEmpty(paths));
    batches := [];
    var index := 0;
    assert From(unique, 0) == unique;
    while index < |unique|
      invariant 0 <= index && batches + Chunks(From(unique, index)) == Chunks(unique)
      decreases |unique| - index
    {
      ChunksStep(unique, index);
      var end := if index + BATCH_SIZE < |unique| then index + BATCH_SIZE else |unique|;
      batches := batches + [unique[index..end]];
      index := index + BATCH_SIZE;
    }
    assert batches + [] == batches;
  }

  // ---------------------------------------------------------------- grouping by bucket

  /** A bucket with the paths collected for it, in the order of a Map. */
  type Groups = seq<(string, seq<string>)>

  function AddPath(gs: Groups, t: Target): Groups {
    if gs == [] then [(t.bucket, [t.path])]
    else if gs[0].0 == t.bucket then
      [(t.bucket, if t.path in gs[0].1 then gs[0].1 else gs[0].1 + [t.path])] + gs[1..]
    else [gs[0]] + AddPath(gs[1..], t)
  }

  function GroupsOf(ts: seq<Target>): Groups {
    if ts == [] then [] else AddPath(GroupsOf(ts[..|ts| - 1]), ts[|ts| - 1])
  }

  /** The bucket and one batch of its paths, in the order in which they are removed. */
  function BatchesOf(g: (string, seq<string>)): seq<(string, seq<string>)> {
    var chunks := Chunks(Unique(NonEmpty(g.1)));
    seq(|chunks|, i requires 0 <= i < |chunks| => (g.0, chunks[i]))
  }

  function Plan(gs: Groups): seq<(string, seq<string>)> {
    if gs == [] then [] else BatchesOf(gs[0]) + Plan(gs[1..])
  }

  function Named(bucket: string, paths: seq<string>): seq<Target> {
    seq(|paths|, i requires 0 <= i < |paths| => Target(bucket, paths[i]))
  }

  function TargetsOf(gs: Groups): seq<Target> {
    if gs == [] then [] else Named(gs[0].0, gs[0].1) + TargetsOf(gs[1..])
  }

  predicate TidyGroup(g: (string, seq<string>)) {
    Distinct(g.1) && "" !in g.1
  }

  /** One group a bucket, and in it every path once. */
  predicate Tidy(gs: Groups) {
    && (forall i :: 0 <= i < |gs| ==> TidyGroup(gs[i]))
    && forall i, k :: 0 <= i < k < |gs| ==> gs[i].0 != gs[k].0
  }

  lemma {:induction false} AddPathBuckets(gs: Groups, t: Target, bucket: string)
    requires forall i :: 0 <= i < |gs| ==> gs[i].0 != bucket
    requires t.bucket != bucket
    ensures forall i :: 0 <= i < |AddPath(gs, t)| ==> AddPath(gs, t)[i].0 != bucket
    decreases |gs|
  {
    if gs != [] && gs[0].0 != t.bucket {
      AddPathBuckets(gs[1..], t, bucket);
    }
  }

  lemma {:induction false} AddPathIsTidy(gs: Groups, t: Target)
    requires Tidy(gs) && t.path != ""
    ensures Tidy(AddPath(gs, t))
    decreases |gs|
  {
    if gs != [] {
      if gs[0].0 == t.bucket {
        assert TidyGroup(gs[0]);
      } else {
        AddPathIsTidy(gs[1..], t);
        AddPathBuckets(gs[1..], t, gs[0].0);
        assert TidyGroup(gs[0]);
      }
    }
  }

  lemma NamedMember(bucket: string, paths: seq<string>, x: Target)
    ensures x in Named(bucket, paths) <==> x.bucket == bucket && x.path in paths
  {
    if x.bucket == bucket && x.path in paths {
      var i :| 0 <= i < |paths| && paths[i] == x.path;
      assert Named(bucket, paths)[i] == x;
    }
  }

  lemma {:induction false} AddPathMembers(gs: Groups, t: Target, x: Target)
    ensures x in TargetsOf(AddPath(gs, t)) <==> x == t || x in TargetsOf(gs)
    decreases |gs|
  {
    if gs == [] {
      NamedMember(t.bucket, [t.path], x);
    } else {
      NamedMember(gs[0].0, gs[0].1, x);
      if gs[0].0 == t.bucket {
        NamedMember(t.bucket, if t.path in gs[0].1 then gs[0].1 else gs[0].1 + [t.path], x);
      } else {
        AddPathMembers(gs[1..], t, x);
      }
    }
  }

  lemma {:induction false} GroupsHoldTargets(ts: seq<Target>)
    requires forall i :: 0 <= i < |ts| ==> ts[i].path != ""
    ensures Tidy(GroupsOf(ts))
    ensures forall x :: x in TargetsOf(GroupsOf(ts)) <==> x in ts
    decreases |ts|
  {
    if ts != [] {
      var n := |ts| - 1;
      GroupsHoldTargets(ts[..n]);
      AddPathIsTidy(GroupsOf(ts[..n]), ts[n]);
      forall x
        ensures x in TargetsOf(GroupsOf(ts)) <==> x in ts
      {
        AddPathMembers(GroupsOf(ts[..n]), ts[n], x);
        assert ts == ts[..n] + [ts[n]];
      }
    }
  }

  function Flat(plan: seq<(string, seq<string>)>): seq<Target> {
    if plan == [] then [] else Named(plan[0].0, plan[0].1) + Flat(plan[1..])
  }

  lemma {:induction false} FlatAppend(a: seq<(string, seq<string>)>, b: seq<(string, seq<string>)>)
    ensures Flat(a + b) == Flat(a) + Flat(b)
    decreases |a|
  {
    if a == [] {
      assert a + b == b;
    } else {
      FlatAppend(a[1..], b);
      assert (a + b)[1..] == a[1..] + b;
    }
  }

  lemma {:induction false} FlatOfChunks(bucket: string, chunks: seq<seq<string>>)
    ensures Flat(seq(|chunks|, i requires 0 <= i < |chunks| => (bucket, chunks[i]))) == Named(bucket, Concat(chunks))
    decreases |chunks|
  {
    var plan := seq(|chunks|, i requires 0 <= i < |chunks| => (bucket, chunks[i]));
    if chunks != [] {
      FlatOfChunks(bucket, chunks[1..]);
      assert plan[1..] == seq(|chunks[1..]|, i requires 0 <= i < |chunks[1..]| => (bucket, chunks[1..][i]));
      assert Named(bucket, Concat(chunks)) == Named(bucket, chunks[0]) + Named(bucket, Concat(chunks[1..]));
    }
  }

  lemma {:induction false} PlanFlattens(gs: Groups)
    requires Tidy(gs)
    ensures Flat(Plan(gs)) == TargetsOf(gs)
    decreases |gs|
  {
    if gs != [] {
      PlanFlattens(gs[1..]);
      assert TidyGroup(gs[0]);
      NonEmptyKeeps(gs[0].1);
      DistinctIsUnique(gs[0].1);
      ChunksPartition(gs[0].1);
      FlatOfChunks(gs[0].0, Chunks(gs[0].1));
      FlatAppend(BatchesOf(gs[0]), Plan(gs[1..]));
    }
  }

  lemma {:induction false} TidyTargetsAreDistinct(gs: Groups)
    requires Tidy(gs)
    ensures Distinct(TargetsOf(gs))
    ensures forall x :: x in TargetsOf(gs) ==> exists i :: 0 <= i < |gs| && gs[i].0 == x.bucket
    decreases |gs|
  {
    if gs != [] {
      TidyTargetsAreDistinct(gs[1..]);
      assert TidyGroup(gs[0]);
      var first, rest := Named(gs[0].0, gs[0].1), TargetsOf(gs[1..]);
      forall x | x in first + rest
        ensures x in rest ==> x.bucket != gs[0].0
        ensures exists i :: 0 <= i < |gs| && gs[i].0 == x.bucket
      {
        if x in rest {
          var i :| 0 <= i < |gs[1..]| && gs[1..][i].0 == x.bucket;
          assert gs[i + 1].0 == x.bucket;
        } else {
          assert gs[0].0 == x.bucket;
        }
      }
      forall i, k | 0 <= i < k < |first + rest|
        ensures (first + rest)[i] != (first + rest)[k]
      {
        if k >= |first| {
          assert (first + rest)[k] in rest;
        }
      }
    }
  }

  /** The planned batches pass every target exactly once, and nothing else. */
  lemma PlanCoversOnce(ts: seq<Target>)
    requires forall i :: 0 <= i < |ts| ==> ts[i].path != ""
    ensures Distinct(Flat(Plan(GroupsOf(ts))))
    ensures forall x :: x in Flat(Plan(GroupsOf(ts))) <==> x in ts
  {
    GroupsHoldTargets(ts);
    PlanFlattens(GroupsOf(ts));
    TidyTargetsAreDistinct(GroupsOf(ts));
  }
}
