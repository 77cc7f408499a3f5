/** Slash-separated paths: splitting a text at its slashes, joining parts, and the segments between slashes. */
module Paths {
  type Path = seq<string>

  function Split(s: string): (r: seq<string>)
    ensures |r| >= 1
    ensures forall i :: 0 <= i < |r| ==> '/' !in r[i]
  {
    if s == "" then [""]
    else
      var rest := Split(s[1..]);
      if s[0] == '/' then [""] + rest else [[s[0]] + rest[0]] + rest[1..]
  }

  function Joined(parts: Path): string
  {
    if parts == [] then ""
    else if |parts| == 1 then parts[0]
    else parts[0] + "/" + Joined(parts[1..])
  }

  lemma {:induction false} SplitPlain(p: string)
    requires '/' !in p
    ensures Split(p) == [p]
  {
    if p != "" {
      assert forall c :: c in p[1..] ==> c in p;
      SplitPlain(p[1..]);
      assert [p[0]] + p[1..] == p;
    }
  }

  lemma {:induction false} SplitFirst(p: string, rest: string)
    requires '/' !in p
    ensures Split(p + "/" + rest) == [p] + Split(rest)
  {
    var s := p + "/" + rest;
    if p == "" {
      assert s[1..] == rest;
    } else {
      assert forall c :: c in p[1..] ==> c in p;
      SplitFirst(p[1..], rest);
      assert s[1..] == p[1..] + "/" + rest;
      assert [p[0]] + p[1..] == p;
    }
  }

  lemma {:induction false} SplitJoined(parts: Path)
    requires parts != [] && forall p :: p in parts ==> '/' !in p
    ensures Split(Joined(parts)) == parts
  {
    if |parts| == 1 {
      SplitPlain(parts[0]);
    } else {
      SplitJoined(parts[1..]);
      SplitFirst(parts[0], Joined(parts[1..]));
    }
  }

  lemma {:induction false} JoinedSplit(s: string)
    ensures Joined(Split(s)) == s
  {
    if s != "" {
      JoinedSplit(s[1..]);
      var rest := Split(s[1..]);
      if s[0] == '/' {
        assert ([""] + rest)[1..] == rest;
      } else {
        assert ([[s[0]] + rest[0]] + rest[1..])[1..] == rest[1..];
      }
    }
  }

  lemma {:induction false} JoinedFirst(p: string, rest: Path)
    ensures Joined([p] + rest) == if rest == [] then p else p + "/" + Joined(rest)
  {
    assert ([p] + rest)[1..] == rest;
  }

  lemma {:induction false} SplitAtSlash(a: string, b: string)
    ensures Split(a + "/" + b) == Split(a) + Split(b)
  {
    JoinedSplit(a);
    JoinedSplit(b);
    JoinedConcat(Split(a), Split(b));
    SplitJoined(Split(a) + Split(b));
  }

  lemma {:induction false} JoinedConcat(a: Path, b: Path)
    requires a != [] && b != []
    ensures Joined(a + b) == Joined(a) + "/" + Joined(b)
  {
    JoinedFirst(a[0], (a + b)[1..]);
    JoinedFirst(a[0], a[1..]);
    assert a + b == [a[0]] + (a + b)[1..] && (a + b)[1..] == a[1..] + b && a == [a[0]] + a[1..];
    if |a| > 1 { JoinedConcat(a[1..], b); } else { assert a[1..] + b == b; }
  }

  /** Characters i .. j of a text lie between two slashes or ends of it, with no slash among them. */
  predicate IsSegment(s: string, i: int, j: int)
  {
    && 0 <= i <= j <= |s| && '/' !in s[i..j]
    && (i == 0 || s[i - 1] == '/') && (j == |s| || s[j] == '/')
  }

  ghost predicate HasSegment(s: string, p: string)
  {
    exists i, j :: IsSegment(s, i, j) && s[i..j] == p
  }

  lemma {:induction false} SegmentOfPart(parts: Path, n: nat)
    requires n < |parts| && forall p :: p in parts ==> '/' !in p
    ensures HasSegment(Joined(parts), parts[n])
  {
    var s := Joined(parts);
    if |parts| == 1 {
      assert s[0..|s|] == parts[0] && IsSegment(s, 0, |s|);
    } else if n == 0 {
      assert s[0..|parts[0]|] == parts[0] && s[|parts[0]|] == '/';
      assert IsSegment(s, 0, |parts[0]|);
    } else {
      var rest, shift := Joined(parts[1..]), |parts[0]| + 1;
      SegmentOfPart(parts[1..], n - 1);
      var i, j :| IsSegment(rest, i, j) && rest[i..j] == parts[1..][n - 1];
      assert s[shift..] == rest;
      assert s[i + shift..j + shift] == s[shift..][i..j];
      assert s[i + shift - 1] == '/' && (j < |rest| ==> s[j + shift] == rest[j]);
      assert IsSegment(s, i + shift, j + shift);
    }
  }

  lemma {:induction false} PartOfSegment(parts: Path, i: int, j: int)
    requires parts != [] && (forall p :: p in parts ==> '/' !in p) && IsSegment(Joined(parts), i, j)
    ensures Joined(parts)[i..j] in parts
  {
    var s := Joined(parts);
    if |parts| == 1 {
      assert parts[0] in parts;
      WholeSegment(s, i, j);
    } else {
      var rest, shift := Joined(parts[1..]), |parts[0]| + 1;
      assert s[..shift - 1] == parts[0] && s[shift - 1] == '/' && s[shift..] == rest;
      assert parts[0] in parts && parts[1..] <= parts[1..];
      if i < shift {
        FirstSegment(s, shift - 1, i, j);
      } else {
        assert s[i..j] == rest[i - shift..j - shift];
        assert (i > shift ==> rest[i - shift - 1] == s[i - 1]) && (j < |s| ==> rest[j - shift] == s[j]);
        PartOfSegment(parts[1..], i - shift, j - shift);
      }
    }
  }

  lemma {:induction false} WholeSegment(s: string, i: int, j: int)
    requires '/' !in s && IsSegment(s, i, j)
    ensures s[i..j] == s
  {
  }

  lemma {:induction false} FirstSegment(s: string, slash: int, i: int, j: int)
    requires 0 <= slash < |s| && s[slash] == '/' && '/' !in s[..slash] && IsSegment(s, i, j) && i <= slash
    ensures s[i..j] == s[..slash]
  {
    assert forall k :: 0 <= k < slash ==> s[k] == s[..slash][k];
    assert forall k :: i <= k < j ==> s[k] == s[i..j][k - i];
  }

  lemma {:induction false} PartIffSegment(s: string, p: string)
    ensures p in Split(s) <==> HasSegment(s, p)
  {
    JoinedSplit(s);
    var parts := Split(s);
    if p in parts {
      var n :| 0 <= n < |parts| && parts[n] == p;
      SegmentOfPart(parts, n);
    }
    if HasSegment(s, p) {
      var i, j :| IsSegment(s, i, j) && s[i..j] == p;
      PartOfSegment(parts, i, j);
    }
  }

  /** A path is the same as another or below it exactly when its parts begin with the other's. */
  lemma {:induction false} BelowIffPrefix(path: string, s: string)
    ensures s == path || path + "/" <= s <==> Split(path) <= Split(s)
  {
    JoinedSplit(path);
    JoinedSplit(s);
    if path + "/" <= s {
      var rest := s[|path| + 1..];
      assert s == path + "/" + rest;
      SplitAtSlash(path, rest);
    }
    if Split(path) <= Split(s) {
      var rest := Split(s)[|Split(path)|..];
      assert Split(s) == Split(path) + rest;
      if rest == [] {
        assert Split(s) == Split(path);
      } else {
        JoinedConcat(Split(path), rest);
      }
    }
  }
}
