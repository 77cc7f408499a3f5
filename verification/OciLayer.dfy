/** The two-pass layer check of scripts/inspect_oci_layer.py against a declarative
    specification of the layers its extractor supports. */
module OciLayer {
  import opened Wrappers
  import opened Paths

  datatype Kind = Directory | Regular | Symlink | Hardlink | Special

  datatype Member = Member(name: string, kind: Kind, sparse: bool, pax: set<string>, uid: int, gid: int,
                           mode: int, size: int, mtime: real, link: string)

  const ALLOWED_PAX: set<string> :=
    {"path", "linkpath", "mtime", "atime", "ctime", "size", "uid", "gid", "uname", "gname"}
  const MAX_NAME: nat := 4096
  const MAX_ID: int := 0xFFFF_FFFF
  const MAX_MODE: int := 4095
  const RUNTIME_MEMBERS: nat := 50_000

  // ---- paths ----

  function Meaningful(parts: seq<string>): (r: Path)
    ensures forall p :: p in r <==> p in parts && p != "" && p != "."
  {
    if parts == [] then []
    else (if parts[0] == "" || parts[0] == "." then [] else [parts[0]]) + Meaningful(parts[1..])
  }

  /** path_parts. */
  function PathParts(name: string): (r: Option<Path>)
    ensures r.Some? ==> forall p :: p in r.value ==> p != "" && p != "." && p != ".." && '/' !in p
  {
    if |name| > MAX_NAME || '\0' in name then None
    else
      var parts := Meaningful(Split(name));
      if (name != "" && name[0] == '/') || ".." in parts then None else Some(parts)
  }

  lemma {:induction false} MeaningfulKeeps(parts: seq<string>)
    requires forall p :: p in parts ==> p != "" && p != "."
    ensures Meaningful(parts) == parts
  {
    if parts != [] {
      assert parts[0] in parts && forall p :: p in parts[1..] ==> p in parts;
      MeaningfulKeeps(parts[1..]);
    }
  }

  /** Dropping empty and "." parts makes a joined name no longer and adds no character. */
  lemma {:induction false} JoinedMeaningful(parts: seq<string>)
    ensures |Joined(Meaningful(parts))| <= |Joined(parts)|
    ensures forall c :: c in Joined(Meaningful(parts)) ==> c in Joined(parts)
  {
    if parts != [] {
      var kept := Meaningful(parts[1..]);
      JoinedMeaningful(parts[1..]);
      JoinedFirst(parts[0], parts[1..]);
      JoinedFirst(parts[0], kept);
      assert parts == [parts[0]] + parts[1..] && [] + kept == kept;
      if parts[1..] == [] { assert kept == []; }
    }
  }

  /** path_parts normalises: joining its parts gives a name with the same parts. */
  lemma {:induction false} PathPartsNormalises(name: string)
    requires PathParts(name).Some?
    ensures PathParts(Joined(PathParts(name).value)) == PathParts(name)
  {
    var parts := PathParts(name).value;
    JoinedMeaningful(Split(name));
    JoinedSplit(name);
    if parts != [] {
      SplitJoined(parts);
      MeaningfulKeeps(parts);
      assert parts[0] in parts;
      assert parts[0] != "" && parts[0][0] in parts[0];
    } else {
      assert Split("") == [""] && [""][1..] == [];
    }
  }

  // ---- which names are refused ----

  /** Names with no place below the root: too long, with a NUL, absolute, or climbing. */
  ghost predicate Unsafe(name: string)
  {
    |name| > 4096 || '\0' in name || "/" <= name || HasSegment(name, "..")
  }

  /** path_parts refuses exactly the unsafe names. */
  lemma {:induction false} RefusesUnsafe(name: string)
    ensures PathParts(name).None? <==> Unsafe(name)
  {
    PartIffSegment(name, "..");
  }

  /** Keeping the meaningful parts is part by part, so it keeps their order and their repetitions. */
  lemma {:induction false} MeaningfulConcat(a: seq<string>, b: seq<string>)
    ensures Meaningful(a + b) == Meaningful(a) + Meaningful(b)
  {
    if a == [] {
      assert [] + b == b;
    } else {
      MeaningfulConcat(a[1..], b);
      MeaningfulFirst(a[0], a[1..]);
      MeaningfulFirst(a[0], a[1..] + b);
      hide Meaningful;
      assert a == [a[0]] + a[1..] && a + b == [a[0]] + (a[1..] + b);
    }
  }

  lemma {:induction false} MeaningfulFirst(p: string, rest: seq<string>)
    ensures Meaningful([p] + rest) == (if p == "" || p == "." then [] else [p]) + Meaningful(rest)
  {
    assert ([p] + rest)[1..] == rest;
  }

  /** A relative name with a directory in front of it has the directory's parts in front of its own. */
  lemma {:induction false} PartsBelow(name: string, rest: string)
    requires PathParts(name).Some? && PathParts(rest).Some? && |name| + 1 + |rest| <= MAX_NAME
    requires name != ""
    ensures PathParts(name + "/" + rest) == Some(PathParts(name).value + PathParts(rest).value)
  {
    SplitAtSlash(name, rest);
    MeaningfulConcat(Split(name), Split(rest));
  }

  // ---- the specification ----

  predicate PathOk(m: Member)
  {
    PathParts(m.name).Some? && (PathParts(m.name).value != [] || m.kind == Directory)
  }

  function Parts(m: Member): Path
    requires PathOk(m)
  {
    PathParts(m.name).value
  }

  predicate IsWhiteout(p: string) { ".wh." <= p }

  predicate TypeOk(m: Member) { !m.sparse && m.kind != Special && m.pax <= ALLOWED_PAX }

  predicate MetadataOk(m: Member)
  {
    0 <= m.uid < MAX_ID && 0 <= m.gid < MAX_ID && 0 <= m.mode <= MAX_MODE && m.size >= 0
  }

  predicate SymlinkOk(m: Member) { m.kind == Symlink ==> '\0' !in m.link && |m.link| <= MAX_NAME }

  ghost predicate Alone(m: Member)
  {
    && PathOk(m) && TypeOk(m) && MetadataOk(m) && SymlinkOk(m)
    && forall p :: p in Parts(m) ==> !IsWhiteout(p)
  }

  ghost predicate SamePath(members: seq<Member>, i: nat, j: nat)
    requires i < |members| && j < |members|
  {
    PathOk(members[i]) && PathOk(members[j]) && Parts(members[i]) == Parts(members[j])
  }

  ghost predicate HasDirectory(members: seq<Member>, path: Path)
  {
    exists j :: 0 <= j < |members| && PathOk(members[j]) && Parts(members[j]) == path && members[j].kind == Directory
  }

  ghost predicate HasTarget(members: seq<Member>, m: Member)
  {
    exists j :: 0 <= j < |members| && PathOk(members[j])
      && PathParts(m.link) == Some(Parts(members[j])) && members[j].kind == Regular
      && (m.mode, m.uid, m.gid, m.mtime)
         == (members[j].mode, members[j].uid, members[j].gid, members[j].mtime)
  }

  ghost predicate InContext(members: seq<Member>, m: Member)
    requires PathOk(m)
  {
    && (forall depth :: 1 <= depth < |Parts(m)| ==> HasDirectory(members, Parts(m)[..depth]))
    && (m.kind == Hardlink ==> HasTarget(members, m))
  }

  ghost predicate AllAlone(members: seq<Member>)
  {
    && (forall i :: 0 <= i < |members| ==> Alone(members[i]))
    && (forall i, j :: 0 <= i < j < |members| ==> !SamePath(members, i, j))
  }

  /** The layers the current extractor supports. */
  ghost predicate Supported(members: seq<Member>)
  {
    && AllAlone(members)
    && (forall i :: 0 <= i < |members| ==> InContext(members, members[i]))
    && |members| <= RUNTIME_MEMBERS
  }

  /** A supported layer writes only below its root, whatever the names look like. */
  lemma {:induction false} SupportedIsSafe(members: seq<Member>, i: nat)
    requires Supported(members) && i < |members|
    ensures !("/" <= members[i].name) && !HasSegment(members[i].name, "..") && '\0' !in members[i].name
    ensures members[i].kind == Hardlink ==> !Unsafe(members[i].link)
  {
    hide PathParts;
    assert Alone(members[i]) && InContext(members, members[i]);
    RefusesUnsafe(members[i].name);
    RefusesUnsafe(members[i].link);
  }

  // ---- the scan ----

  datatype Reason = UnsupportedPath | Whiteout | DuplicatePath | UnsupportedType | UnsupportedMetadata
                  | UnsupportedSymlink | ParentContext | HardlinkContext | MemberLimit

  datatype Entry = Entry(index: nat, kind: Kind, mode: int, uid: int, gid: int, mtime: real, link: string)

  datatype Verdict = LimitReached | Scanned(reasons: seq<(Reason, nat)>, supported: bool)

  function EntryOf(m: Member, index: nat): Entry
  {
    Entry(index, m.kind, m.mode, m.uid, m.gid, m.mtime, m.link)
  }

  /** The dictionary after `n` members: every usable path, holding one of its members. */
  ghost predicate Holds(members: seq<Member>, n: nat, entries: map<Path, Entry>, order: seq<Path>)
    requires n <= |members|
  {
    && (forall p :: p in order <==> p in entries)
    && (forall i :: 0 <= i < n && PathOk(members[i]) ==> Parts(members[i]) in entries)
    && (forall p :: p in entries ==>
          var i := entries[p].index;
          i < n && PathOk(members[i]) && Parts(members[i]) == p && entries[p] == EntryOf(members[i], i))
  }

  /** The streaming pass: it rejects nothing exactly when each member is acceptable alone and
      no path repeats. It lists exactly the reasons members have, in their order. */
  method Stream(members: seq<Member>) returns (entries: map<Path, Entry>, order: seq<Path>, reasons: seq<(Reason, nat)>)
    ensures Holds(members, |members|, entries, order)
    ensures reasons == [] <==> AllAlone(members)
    ensures forall reason, i: nat :: (reason, i) in reasons <==> Rejected(members, reason, i)
    ensures forall k, l :: 0 <= k < l < |reasons| ==> reasons[k].1 <= reasons[l].1
  {
    hide MemberReasons, Rejected, PathParts, PathOk;
    entries, order, reasons := map[], [], [];
    var i := 0;
    while i < |members|
      invariant 0 <= i <= |members|
      invariant Holds(members, i, entries, order)
      invariant reasons == [] <==> CleanUpTo(members, i)
      invariant forall reason, j: nat :: (reason, j) in reasons <==> j < i && Rejected(members, reason, j)
      invariant forall k :: 0 <= k < |reasons| ==> reasons[k].1 < i
      invariant forall k, l :: 0 <= k < l < |reasons| ==> reasons[k].1 <= reasons[l].1
    {
      var m := members[i];
      var mine := MemberReasons(m, PathOk(m) && Parts(m) in entries);
      MineRejected(members, i, entries, order);
      Listed(reasons, mine, i);
      reasons := reasons + Tagged(mine, i);
      CleanNext(members, i, entries, order);
      HoldsNext(members, i, entries, order);
      if PathOk(m) {
        if Parts(m) !in entries { order := order + [Parts(m)]; }
        entries := entries[Parts(m) := EntryOf(m, i)];
      }
      i := i + 1;
    }
    RejectedExist(members);
  }

  lemma {:induction false} RejectedExist(members: seq<Member>)
    ensures forall reason, i: nat :: Rejected(members, reason, i) ==> i < |members|
  {
  }

  function Tagged(mine: seq<Reason>, i: nat): (r: seq<(Reason, nat)>)
    ensures |r| == |mine| && forall k :: 0 <= k < |r| ==> r[k] == (mine[k], i)
  {
    seq(|mine|, k requires 0 <= k < |mine| => (mine[k], i))
  }

  lemma {:induction false} Listed(reasons: seq<(Reason, nat)>, mine: seq<Reason>, i: nat)
    ensures forall reason, j: nat :: (reason, j) in reasons + Tagged(mine, i) <==> (reason, j) in reasons || (j == i && reason in mine)
  {
    forall reason, j: nat
      ensures (reason, j) in reasons + Tagged(mine, i) <==> (reason, j) in reasons || (j == i && reason in mine)
    {
      if j == i && reason in mine {
        var k :| 0 <= k < |mine| && mine[k] == reason;
        assert Tagged(mine, i)[k] == (reason, j);
      }
    }
  }

  lemma {:induction false} HoldsNext(members: seq<Member>, i: nat, entries: map<Path, Entry>, order: seq<Path>)
    requires i < |members| && Holds(members, i, entries, order)
    ensures PathOk(members[i]) ==>
              var p := Parts(members[i]);
              Holds(members, i + 1, entries[p := EntryOf(members[i], i)], if p in entries then order else order + [p])
    ensures !PathOk(members[i]) ==> Holds(members, i + 1, entries, order)
  {
    hide PathParts;
  }

  /** One member's rejections, in the order the pass makes them. */
  function MemberReasons(m: Member, repeated: bool): seq<Reason>
    requires repeated ==> PathOk(m)
  {
    if !PathOk(m) then [UnsupportedPath]
    else
      (if exists p :: p in Parts(m) && IsWhiteout(p) then [Whiteout] else []) +
      (if repeated then [DuplicatePath] else []) +
      (if !TypeOk(m) then [UnsupportedType] else []) +
      (if !MetadataOk(m) then [UnsupportedMetadata] else []) +
      (if !SymlinkOk(m) then [UnsupportedSymlink] else [])
  }

  /** Why member `i` is rejected, whatever pass reports it. */
  ghost predicate Rejected(members: seq<Member>, reason: Reason, i: nat)
  {
    i < |members| &&
    match reason
    case UnsupportedPath => !PathOk(members[i])
    case Whiteout => PathOk(members[i]) && exists p :: p in Parts(members[i]) && IsWhiteout(p)
    case DuplicatePath => exists j :: 0 <= j < i && SamePath(members, j, i)
    case UnsupportedType => PathOk(members[i]) && !TypeOk(members[i])
    case UnsupportedMetadata => PathOk(members[i]) && !MetadataOk(members[i])
    case UnsupportedSymlink => PathOk(members[i]) && !SymlinkOk(members[i])
    case _ => false
  }

  ghost predicate CleanUpTo(members: seq<Member>, n: nat)
    requires n <= |members|
  {
    && (forall i :: 0 <= i < n ==> Alone(members[i]))
    && (forall i, j :: 0 <= i < j < n ==> !SamePath(members, i, j))
  }

  lemma {:induction false} RepeatedIffSeen(members: seq<Member>, i: nat, entries: map<Path, Entry>, order: seq<Path>)
    requires i < |members| && Holds(members, i, entries, order) && PathOk(members[i])
    ensures Parts(members[i]) in entries <==> exists j :: 0 <= j < i && SamePath(members, j, i)
  {
    if Parts(members[i]) in entries {
      assert SamePath(members, entries[Parts(members[i])].index, i);
    }
  }

  lemma {:induction false} MineRejected(members: seq<Member>, i: nat, entries: map<Path, Entry>, order: seq<Path>)
    requires i < |members| && Holds(members, i, entries, order)
    ensures var m := members[i];
            forall r :: r in MemberReasons(m, PathOk(m) && Parts(m) in entries) <==> Rejected(members, r, i)
  {
    hide PathParts, TypeOk, MetadataOk, SymlinkOk, IsWhiteout, Holds;
    if PathOk(members[i]) { RepeatedIffSeen(members, i, entries, order); }
  }

  lemma {:induction false} NoReasons(m: Member, repeated: bool)
    requires repeated ==> PathOk(m)
    ensures MemberReasons(m, repeated) == [] <==> Alone(m) && !repeated
  {
  }

  lemma {:induction false} CleanNext(members: seq<Member>, i: nat, entries: map<Path, Entry>, order: seq<Path>)
    requires i < |members| && Holds(members, i, entries, order)
    ensures var m := members[i];
            CleanUpTo(members, i + 1)
            <==> CleanUpTo(members, i) && MemberReasons(m, PathOk(m) && Parts(m) in entries) == []
  {
    hide PathParts, TypeOk, MetadataOk, SymlinkOk, IsWhiteout, SamePath, Holds, MemberReasons, Alone, Parts;
    var m := members[i];
    NoReasons(m, PathOk(m) && Parts(m) in entries);
    AlonePath(m);
    if PathOk(m) { RepeatedIffSeen(members, i, entries, order); }
    hide PathOk;
    if CleanUpTo(members, i) && Alone(m) {
      if forall j :: 0 <= j < i ==> !SamePath(members, j, i) {
        assert CleanUpTo(members, i + 1);
      }
    }
  }

  lemma {:induction false} AlonePath(m: Member)
    ensures Alone(m) ==> PathOk(m)
  {
  }

  /** The second pass's tests on one dictionary entry. */
  predicate ParentsPresent(entries: map<Path, Entry>, path: Path)
  {
    forall depth :: 1 <= depth < |path| ==>
      path[..depth] in entries && entries[path[..depth]].kind == Directory
  }

  predicate TargetPresent(entries: map<Path, Entry>, e: Entry)
  {
    var target := PathParts(e.link);
    && target.Some? && target.value in entries
    && var t := entries[target.value];
       t.kind == Regular && (e.mode, e.uid, e.gid, e.mtime) == (t.mode, t.uid, t.gid, t.mtime)
  }

  predicate EntryInContext(entries: map<Path, Entry>, path: Path)
    requires path in entries
  {
    && ParentsPresent(entries, path)
    && (entries[path].kind == Hardlink ==> TargetPresent(entries, entries[path]))
  }

  /** Why the dictionary's entry of a path is rejected. */
  predicate OutOfContext(entries: map<Path, Entry>, path: Path, reason: Reason)
    requires path in entries
  {
    || (reason == ParentContext && !ParentsPresent(entries, path))
    || (reason == HardlinkContext && entries[path].kind == Hardlink && !TargetPresent(entries, entries[path]))
  }

  /** The pass over the dictionary. */
  method Resolve(entries: map<Path, Entry>, order: seq<Path>) returns (reasons: seq<(Reason, nat)>)
    requires forall p :: p in order <==> p in entries
    ensures reasons == [] <==> forall p :: p in entries ==> EntryInContext(entries, p)
    ensures forall reason, i :: (reason, i) in reasons <==>
              exists p :: p in entries && entries[p].index == i && OutOfContext(entries, p, reason)
  {
    hide ParentsPresent, TargetPresent;
    reasons := [];
    var k := 0;
    while k < |order|
      invariant 0 <= k <= |order|
      invariant reasons == [] <==> forall j :: 0 <= j < k ==> order[j] in entries && EntryInContext(entries, order[j])
      invariant forall reason, i :: (reason, i) in reasons <==>
                  exists j :: 0 <= j < k && order[j] in entries && entries[order[j]].index == i
                              && OutOfContext(entries, order[j], reason)
    {
      var path := order[k];
      assert path in order;
      var e := entries[path];
      if !ParentsPresent(entries, path) { reasons := reasons + [(ParentContext, e.index)]; }
      if e.kind == Hardlink && !TargetPresent(entries, e) { reasons := reasons + [(HardlinkContext, e.index)]; }
      k := k + 1;
    }
  }

  lemma {:induction false} DirectoryMatches(members: seq<Member>, entries: map<Path, Entry>, order: seq<Path>, path: Path)
    requires Holds(members, |members|, entries, order) && AllAlone(members)
    ensures HasDirectory(members, path) <==> path in entries && entries[path].kind == Directory
  {
    if HasDirectory(members, path) {
      var j :| 0 <= j < |members| && PathOk(members[j]) && Parts(members[j]) == path && members[j].kind == Directory;
      OnlyMember(members, entries, order, j);
    }
  }

  /** Without repeats the dictionary holds each member under its own path. */
  lemma {:induction false} OnlyMember(members: seq<Member>, entries: map<Path, Entry>, order: seq<Path>, j: nat)
    requires Holds(members, |members|, entries, order) && AllAlone(members) && j < |members|
    ensures PathOk(members[j]) && Parts(members[j]) in entries
    ensures entries[Parts(members[j])] == EntryOf(members[j], j)
  {
    assert Alone(members[j]);
    var i := entries[Parts(members[j])].index;
    assert i != j ==> SamePath(members, i, j) && SamePath(members, j, i);
  }

  lemma {:induction false} TargetMatches(members: seq<Member>, entries: map<Path, Entry>, order: seq<Path>, i: nat)
    requires Holds(members, |members|, entries, order) && AllAlone(members) && i < |members|
    ensures HasTarget(members, members[i]) <==> TargetPresent(entries, EntryOf(members[i], i))
  {
    if HasTarget(members, members[i]) {
      var j :| 0 <= j < |members| && PathOk(members[j])
        && PathParts(members[i].link) == Some(Parts(members[j])) && members[j].kind == Regular
        && (members[i].mode, members[i].uid, members[i].gid, members[i].mtime)
           == (members[j].mode, members[j].uid, members[j].gid, members[j].mtime);
      OnlyMember(members, entries, order, j);
    }
    if TargetPresent(entries, EntryOf(members[i], i)) {
      var j := entries[PathParts(members[i].link).value].index;
      assert PathOk(members[j]) && Parts(members[j]) == PathParts(members[i].link).value;
    }
  }

  lemma {:induction false} ContextMatches(members: seq<Member>, entries: map<Path, Entry>, order: seq<Path>, i: nat)
    requires Holds(members, |members|, entries, order) && AllAlone(members) && i < |members|
    ensures PathOk(members[i]) && Parts(members[i]) in entries
    ensures InContext(members, members[i]) <==> EntryInContext(entries, Parts(members[i]))
  {
    OnlyMember(members, entries, order, i);
    TargetMatches(members, entries, order, i);
    var path := Parts(members[i]);
    forall depth | 1 <= depth < |path|
      ensures HasDirectory(members, path[..depth])
              <==> path[..depth] in entries && entries[path[..depth]].kind == Directory
    {
      DirectoryMatches(members, entries, order, path[..depth]);
    }
  }

  /** scan_archive: "supported" if and only if the members meet the specification. */
  method ScanArchive(members: seq<Member>, maxMembers: nat) returns (r: Verdict)
    ensures r.LimitReached? <==> |members| > maxMembers
    ensures r.Scanned? ==> (r.supported <==> Supported(members)) && (r.supported <==> r.reasons == [])
    ensures r.Scanned? ==> forall reason, i: nat :: Rejected(members, reason, i) ==> (reason, i) in r.reasons
  {
    if |members| > maxMembers { return LimitReached; }
    var entries, order, reasons := Stream(members);
    var later := Resolve(entries, order);
    reasons := reasons + later;
    if |members| > RUNTIME_MEMBERS { reasons := reasons + [(MemberLimit, RUNTIME_MEMBERS)]; }
    if AllAlone(members) {
      PassesMatch(members, entries, order);
    }
    r := Scanned(reasons, reasons == []);
  }

  lemma {:induction false} PassesMatch(members: seq<Member>, entries: map<Path, Entry>, order: seq<Path>)
    requires Holds(members, |members|, entries, order) && AllAlone(members)
    ensures (forall p :: p in entries ==> EntryInContext(entries, p))
            <==> forall i :: 0 <= i < |members| ==> PathOk(members[i]) && InContext(members, members[i])
  {
    forall i | 0 <= i < |members|
      ensures PathOk(members[i]) && Parts(members[i]) in entries
      ensures InContext(members, members[i]) <==> EntryInContext(entries, Parts(members[i]))
    {
      ContextMatches(members, entries, order, i);
    }
    if forall i :: 0 <= i < |members| ==> InContext(members, members[i]) {
      forall p | p in entries ensures EntryInContext(entries, p) {
        var i := entries[p].index;
        assert Parts(members[i]) == p;
      }
    }
  }
}
