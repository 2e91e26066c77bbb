/** Byte strings, and the C string and QString operations both ends of the chat protocol use. */
module Bytes {

  newtype byte = x: int | 0 <= x < 256
  type bytes = seq<byte>

  const NUL: byte := 0
  const PLUS: byte := 43          // '+'
  const PRIVATE: byte := 20       // spl  : private message
  const GROUP: byte := 21         // spl2 : group message
  const LEAVE: byte := 22         // spl3 : a user left
  const JOIN: byte := 23          // spl4 : a user joined

  /** A string that went through `substr(0, find('\0'))`: `c_str()` gives all of it back. */
  type Name = s: bytes | NUL !in s

  datatype Option<+T> = None | Some(value: T) {
    function GetOr(default: T): T {
      if Some? then value else default
    }
  }

  /** The bytes before the first `b`, or all of them. */
  function Until(s: bytes, b: byte): (r: bytes)
    ensures b !in r
    ensures r <= s
    ensures |r| == |s| <==> b !in s
    ensures |r| < |s| ==> s[|r|] == b
  {
    if s == [] || s[0] == b then [] else [s[0]] + Until(s[1..], b)
  }

  /** What a NUL-terminated reader sees of `s`. */
  function CStr(s: bytes): (r: Name)
    ensures r <= s
    ensures r == s <==> NUL !in s
  {
    Until(s, NUL)
  }

  /** A prefix free of `b` that ends at a `b`, or at the end, is the one `Until` finds. */
  lemma UntilIs(s: bytes, b: byte, r: bytes)
    requires r <= s && b !in r
    requires |r| < |s| ==> s[|r|] == b
    ensures Until(s, b) == r
  {
    var q := Until(s, b);
    if |q| < |r| || |r| < |q| {
      assert false;
    }
  }

  lemma UntilStops(a: bytes, b: byte, t: bytes)
    requires b !in a
    ensures Until(a + [b] + t, b) == a
    ensures Until(a, b) == a
  {
    UntilIs(a + [b] + t, b, a);
    UntilIs(a, b, a);
  }

  lemma UntilAppend(a: bytes, t: bytes, b: byte)
    requires b !in a
    ensures Until(a + t, b) == a + Until(t, b)
  {
    UntilIs(a + t, b, a + Until(t, b));
  }

  /** QString::split: keeps empty parts, always at least one part. */
  function Split(s: bytes, b: byte): (r: seq<bytes>)
    ensures |r| >= 1
    ensures r[0] == Until(s, b)
    decreases |s|
  {
    var h := Until(s, b);
    if |h| == |s| then [h] else [h] + Split(s[|h| + 1..], b)
  }

  lemma SplitCons(a: bytes, b: byte, t: bytes)
    requires b !in a
    ensures Split(a + [b] + t, b) == [a] + Split(t, b)
  {
    UntilStops(a, b, t);
    assert (a + [b] + t)[|a| + 1..] == t;
  }

  lemma SplitOne(a: bytes, b: byte)
    requires b !in a
    ensures Split(a, b) == [a]
  {
    UntilStops(a, b, []);
  }

  /** QList::indexOf: the first position holding `x`, or -1. */
  function IndexOf<T(==)>(s: seq<T>, x: T): (i: int)
    ensures -1 <= i < |s|
    ensures i == -1 <==> x !in s
    ensures i >= 0 ==> s[i] == x && x !in s[..i]
  {
    if s == [] then -1
    else if s[0] == x then 0
    else
      var i := IndexOf(s[1..], x);
      if i == -1 then -1
      else
        assert s[..i + 1] == [s[0]] + s[1..][..i];
        i + 1
  }

  function RemoveAt<T>(s: seq<T>, i: nat): (r: seq<T>)
    requires i < |s|
    ensures |r| == |s| - 1
    ensures forall j :: 0 <= j < i ==> r[j] == s[j]
    ensures forall j :: i <= j < |r| ==> r[j] == s[j + 1]
    ensures multiset(r) == multiset(s) - multiset{s[i]}
  {
    assert s == s[..i] + [s[i]] + s[i + 1..];
    s[..i] + s[i + 1..]
  }

  /** QList::removeOne: drops the first occurrence, if there is one. */
  function RemoveOne<T(==)>(s: seq<T>, x: T): (r: seq<T>)
    ensures multiset(r) == multiset(s) - multiset{x}
    ensures |r| == if x in s then |s| - 1 else |s|
    ensures x !in s ==> r == s
  {
    var i := IndexOf(s, x);
    if i == -1 then s else RemoveAt(s, i)
  }

  ghost predicate NoDup<T>(s: seq<T>) {
    forall i, j :: 0 <= i < j < |s| ==> s[i] != s[j]
  }

  lemma Assoc<T>(a: seq<T>, b: seq<T>, c: seq<T>)
    ensures a + (b + c) == a + b + c
  {
  }

  lemma TailAppend<T>(a: seq<T>, b: seq<T>)
    requires a != []
    ensures (a + b)[0] == a[0] && (a + b)[1..] == a[1..] + b
  {
  }
}
