/** The chat messages: how each end writes them and how the other end takes them apart. */
module Protocol {
  import opened Bytes

  // ---------------------------------------------------------------- roster

  /** What `UserLogin` sends first: every name followed by '+'. */
  function RosterText(names: seq<Name>): (r: Name)
    ensures names != [] ==> r != [] && r[|r| - 1] == PLUS
  {
    if names == [] then [] else names[0] + [PLUS] + RosterText(names[1..])
  }

  /** What `reciveLogin` makes of it: split on '+', one empty part removed. */
  function ParseRoster(text: bytes): seq<bytes> {
    RemoveOne(Split(CStr(text), PLUS), [])
  }

  ghost predicate NoPlus(names: seq<Name>) {
    forall i :: 0 <= i < |names| ==> PLUS !in names[i]
  }

  /** Empty names, if any, all come last. */
  ghost predicate EmptiesLast(names: seq<bytes>) {
    forall i, j :: 0 <= i < j < |names| && names[i] == [] ==> names[j] == []
  }

  lemma SplitRosterCons(names: seq<Name>)
    requires names != [] && PLUS !in names[0]
    ensures Split(RosterText(names), PLUS) == [names[0]] + Split(RosterText(names[1..]), PLUS)
  {
    SplitCons(names[0], PLUS, RosterText(names[1..]));
  }

  lemma {:induction false} SplitRoster(names: seq<Name>)
    requires NoPlus(names)
    ensures Split(RosterText(names), PLUS) == names + [[]]
  {
    if names == [] {
      SplitOne([], PLUS);
    } else {
      var tail: seq<bytes> := Split(RosterText(names[1..]), PLUS);
      assert tail == names[1..] + [[]] by { SplitRoster(names[1..]); }
      assert [names[0]] + tail == names + [[]];
      SplitRosterCons(names);
    }
  }

  lemma CountFirst(h: bytes, b: byte, rest: bytes)
    requires b !in h
    ensures multiset(h + [b] + rest)[b] == 1 + multiset(rest)[b]
  {
  }

  /** A string that holds `b`: the part before it, `b`, the rest. */
  lemma UntilParts(s: bytes, b: byte)
    requires |Until(s, b)| < |s|
    ensures var h := Until(s, b); s == h + [b] + s[|h| + 1..]
  {
  }

  lemma {:induction false} SplitCount(s: bytes, b: byte)
    ensures |Split(s, b)| == multiset(s)[b] + 1
    decreases |s|
  {
    var h := Until(s, b);
    if |h| < |s| {
      UntilParts(s, b);
      CountFirst(h, b, s[|h| + 1..]);
      SplitCount(s[|h| + 1..], b);
    }
  }

  lemma {:induction false} SplitEndsEmpty(s: bytes, b: byte)
    requires s != [] ==> s[|s| - 1] == b
    ensures [] in Split(s, b)
    decreases |s|
  {
    var h := Until(s, b);
    if s != [] {
      var rest := s[|h| + 1..];
      if rest != [] {
        assert rest[|rest| - 1] == s[|s| - 1];
      }
      SplitEndsEmpty(rest, b);
    }
  }

  lemma {:induction false} RosterPlusCount(names: seq<Name>)
    ensures multiset(RosterText(names))[PLUS] >= |names|
    ensures multiset(RosterText(names))[PLUS] == |names| ==> NoPlus(names)
  {
    if names != [] {
      RosterPlusCount(names[1..]);
      assert multiset(RosterText(names)) == multiset(names[0]) + multiset{PLUS} + multiset(RosterText(names[1..]));
      if multiset(RosterText(names))[PLUS] == |names| {
        assert multiset(names[0])[PLUS] == 0;
        forall i | 0 <= i < |names| ensures PLUS !in names[i] {
          if i > 0 { assert names[i] == names[1..][i - 1]; }
        }
      }
    }
  }

  /** Dropping the first empty part of `names + [""]` gives `names` back exactly when the empties come last. */
  lemma RemoveTrailingEmpty(names: seq<Name>)
    ensures RemoveOne(names + [[]], []) == names <==> EmptiesLast(names)
  {
    var all: seq<bytes> := names + [[]];
    var at := IndexOf(all, []);
    assert all[|names|] == [];
    FirstEmpty(names, at);
    ShiftedIsSame(names, at);
  }

  lemma FirstEmpty(names: seq<bytes>, at: nat)
    requires at <= |names| && (names + [[]])[at] == [] && [] !in (names + [[]])[..at]
    ensures EmptiesLast(names) <==> EmptyFrom(names, at)
  {
    forall j | 0 <= j < at ensures names[j] != [] {
      assert (names + [[]])[..at][j] == names[j];
    }
  }

  ghost predicate EmptyFrom(names: seq<bytes>, at: nat) {
    forall j :: at <= j < |names| ==> names[j] == []
  }

  lemma LastNonEmpty(names: seq<bytes>, at: nat) returns (j: nat)
    requires !EmptyFrom(names, at)
    ensures at <= j < |names| && names[j] != [] && EmptyFrom(names, j + 1)
  {
    j := |names| - 1;
    while names[j] == []
      invariant at <= j < |names| && EmptyFrom(names, j + 1)
      decreases j
    {
      assert !EmptyFrom(names, at);
      j := j - 1;
    }
  }

  lemma ShiftedIsSame(names: seq<bytes>, at: nat)
    requires at <= |names| && (names + [[]])[at] == []
    ensures RemoveAt(names + [[]], at) == names <==> EmptyFrom(names, at)
  {
    var all := names + [[]];
    var r := RemoveAt(all, at);
    if EmptyFrom(names, at) {
      forall j | 0 <= j < |names| ensures r[j] == names[j] {
        assert r[j] == if j < at then all[j] else all[j + 1];
      }
    } else {
      var j := LastNonEmpty(names, at);
      assert r[j] == all[j + 1] == [];
    }
  }

  /** The text ends with '+', so its last part is empty and is what the removal takes away from the count. */
  lemma ParseRosterLength(names: seq<Name>)
    ensures |ParseRoster(RosterText(names))| == multiset(RosterText(names))[PLUS]
  {
    SplitCount(RosterText(names), PLUS);
    SplitEndsEmpty(RosterText(names), PLUS);
  }

  /**
   * The client reads back the names the server joined exactly when no name holds a '+' and the
   * empty names, if any, come last.
   */
  lemma RosterRoundTrip(names: seq<Name>)
    ensures ParseRoster(RosterText(names)) == names <==> NoPlus(names) && EmptiesLast(names)
  {
    if NoPlus(names) {
      SplitRoster(names);
      RemoveTrailingEmpty(names);
    } else {
      ParseRosterLength(names);
      RosterPlusCount(names);
    }
  }

  /**
   * The client finds its own name twice in the roster exactly when the server found it taken:
   * `others` are the names registered before this login, each once.
   */
  lemma DuplicateAgreement(others: seq<Name>, own: Name)
    requires NoDup(others) && NoPlus(others + [own])
    requires own != [] && [] !in others
    ensures ParseRoster(RosterText(others + [own])) == others + [own]
    ensures multiset(ParseRoster(RosterText(others + [own])))[own] > 1 <==> own in others
  {
    var all := others + [own];
    forall i | 0 <= i < |all| ensures all[i] != [] {
      if i < |others| { assert all[i] in others; }
    }
    RosterRoundTrip(all);
    assert multiset(all)[own] == multiset(others)[own] + 1;
  }

  // ---------------------------------------------------------------- join and leave notices

  function Notice(kind: byte, name: Name): bytes {
    [kind] + name
  }

  /** `now_content.split(kind)[1]`. */
  function NoticeName(kind: byte, text: bytes): Option<bytes> {
    var parts := Split(CStr(text), kind);
    if |parts| >= 2 then Some(parts[1]) else None
  }

  /** A notice delivers its name exactly when the name is free of the notice's own tag byte. */
  lemma NoticeRoundTrip(kind: byte, name: Name)
    requires kind != NUL
    ensures NoticeName(kind, Notice(kind, name)) == Some(name) <==> kind !in name
  {
    var text := Notice(kind, name);
    assert NUL !in text;
    assert CStr(text) == text;
    SplitHead(kind, name);
    assert Split(text, kind)[1] == Split(name, kind)[0] == Until(name, kind);
    assert Until(name, kind) == name <==> kind !in name;
  }

  // ---------------------------------------------------------------- private and group messages

  function ClientPrivate(dest: bytes, text: bytes): bytes {
    [PRIVATE] + dest + [PRIVATE] + text
  }

  function ClientGroup(text: bytes): bytes {
    [GROUP] + text
  }

  /**
   * The client sends three bytes per character from `c_str()`: the message, and when that is longer than
   * the message, its NUL and whatever lies behind.
   */
  ghost predicate OnWire(s: bytes, w: bytes) {
    w == s || (|s| < |w| && w[..|s|] == s && w[|s|] == NUL)
  }

  function ServerMessage(kind: byte, source: bytes, text: bytes): bytes {
    [kind] + source + [kind] + text
  }

  /** Destination and text of a private message; None when the scan for the second separator runs off the end. */
  function ServerSplit(buf: bytes): Option<(bytes, bytes)>
    requires CStr(buf) != []
  {
    var b := CStr(buf);
    var dest := Until(b[1..], PRIVATE);
    if |dest| == |b| - 1 then None else Some((dest, b[|dest| + 2..]))
  }

  /** `now_content.split(kind)`: source is part 1, text part 2. */
  function ClientSplit(kind: byte, buffer: bytes): Option<(bytes, bytes)> {
    var parts := Split(CStr(buffer), kind);
    if |parts| >= 3 then Some((parts[1], parts[2])) else None
  }

  /** The scan loop of `SendPrivateMsg`. It stops in front of a separator, or is cut off at the end of the string. */
  method ScanDest(buf: bytes) returns (r: Option<(bytes, bytes)>)
    requires CStr(buf) != []
    ensures r == ServerSplit(buf)
  {
    var b := CStr(buf);
    var begin, dest := 1, [];
    while begin < |b| && b[begin] != PRIVATE
      invariant 1 <= begin <= |b|
      invariant dest == b[1..begin]
      invariant PRIVATE !in dest
    {
      dest := dest + [b[begin]];
      begin := begin + 1;
    }
    if begin < |b| {
      assert b[1..] == dest + [PRIVATE] + b[begin + 1..];
      UntilStops(dest, PRIVATE, b[begin + 1..]);
      r := Some((dest, b[begin + 1..]));
    } else {
      UntilStops(b[1..], PRIVATE, []);
      r := None;
    }
  }

  /** The scan terminates inside the string exactly when a second separator is there. */
  lemma ScanTerminates(buf: bytes)
    requires CStr(buf) != []
    ensures ServerSplit(buf).Some? <==> PRIVATE in CStr(buf)[1..]
  {
  }

  /** A NUL-terminated reader sees the same text whether or not padding follows. */
  lemma WireCStr(s: bytes, w: bytes)
    requires OnWire(s, w)
    ensures CStr(w) == CStr(s)
  {
    if w != s {
      assert w == s + w[|s|..];
      if NUL in s {
        var h := CStr(s);
        assert s == h + [NUL] + s[|h| + 1..];
        assert w == h + [NUL] + w[|h| + 1..];
        UntilStops(h, NUL, w[|h| + 1..]);
      } else {
        UntilAppend(s, w[|s|..], NUL);
      }
    }
  }

  lemma CStrMessage(kind: byte, source: Name, text: bytes)
    requires kind != NUL
    ensures CStr(ServerMessage(kind, source, text)) == ServerMessage(kind, source, CStr(text))
  {
    UntilAppend([kind] + source + [kind], text, NUL);
  }

  lemma SplitHead(kind: byte, t: bytes)
    ensures Split([kind] + t, kind) == [[]] + Split(t, kind)
  {
    assert [] + [kind] + t == [kind] + t;
    SplitCons([], kind, t);
  }

  lemma MessageTail(kind: byte, source: bytes, rest: bytes)
    ensures ServerMessage(kind, source, rest) == [kind] + (source + [kind] + rest)
  {
    Assoc([kind], source, [kind]);
    Assoc([kind], source + [kind], rest);
  }

  lemma SplitMessage(kind: byte, source: bytes, rest: bytes)
    requires kind !in source
    ensures Split(ServerMessage(kind, source, rest), kind) == [[]] + ([source] + Split(rest, kind))
  {
    MessageTail(kind, source, rest);
    SplitHead(kind, source + [kind] + rest);
    SplitCons(source, kind, rest);
  }

  /** What the recipient makes of a message the server wrote: the true source, the text up to the first NUL or tag. */
  lemma ClientReads(kind: byte, source: Name, text: bytes)
    requires kind != NUL && kind !in source
    ensures ClientSplit(kind, ServerMessage(kind, source, text)) == Some((source, Until(CStr(text), kind)))
  {
    CStrMessage(kind, source, text);
    SplitMessage(kind, source, CStr(text));
    var parts := Split(CStr(text), kind);
    assert ([[]] + ([source] + parts))[2] == parts[0];
  }

  lemma UntilIsAll(text: bytes, kind: byte)
    ensures Until(CStr(text), kind) == text <==> NUL !in text && kind !in text
  {
  }

  lemma ScanFinds(dest: bytes, rest: bytes)
    requires PRIVATE !in dest
    ensures var b := ClientPrivate(dest, rest); Until(b[1..], PRIVATE) == dest && b[|dest| + 2..] == rest
  {
    UntilStops(dest, PRIVATE, rest);
    assert ClientPrivate(dest, rest)[1..] == dest + [PRIVATE] + rest;
  }

  /** The server finds the destination and the text up to the first NUL, whatever padding the client sends. */
  lemma ServerReads(dest: Name, text: bytes, w: bytes)
    requires PRIVATE !in dest
    requires OnWire(ClientPrivate(dest, text), w)
    ensures CStr(w) != [] && ServerSplit(w) == Some((dest, CStr(text)))
  {
    WireCStr(ClientPrivate(dest, text), w);
    CStrMessage(PRIVATE, dest, text);
    assert CStr(w) == ClientPrivate(dest, CStr(text));
    ScanFinds(dest, CStr(text));
  }

  /**
   * Private message, two hops: the recipient gets the true source, and the original text exactly when the
   * text holds no NUL and no separator.
   */
  lemma PrivateTwoHop(source: Name, dest: Name, text: bytes, w: bytes)
    requires PRIVATE !in source && PRIVATE !in dest
    requires OnWire(ClientPrivate(dest, text), w)
    ensures CStr(w) != [] && ServerSplit(w) == Some((dest, CStr(text)))
    ensures ClientSplit(PRIVATE, ServerMessage(PRIVATE, source, CStr(text))) ==
            Some((source, Until(CStr(text), PRIVATE)))
    ensures ClientSplit(PRIVATE, ServerMessage(PRIVATE, source, CStr(text))) == Some((source, text))
       <==> NUL !in text && PRIVATE !in text
  {
    ServerReads(dest, text, w);
    ClientReads(PRIVATE, source, CStr(text));
    UntilStops(CStr(text), NUL, []);
    UntilIsAll(text, PRIVATE);
  }

  /** Group message, two hops; the server forwards the padding, the recipient cuts it off. */
  lemma GroupTwoHop(source: Name, text: bytes, w: bytes)
    requires GROUP !in source
    requires OnWire(ClientGroup(text), w)
    ensures ClientSplit(GROUP, ServerMessage(GROUP, source, w[1..])) == Some((source, Until(CStr(text), GROUP)))
    ensures ClientSplit(GROUP, ServerMessage(GROUP, source, w[1..])) == Some((source, text))
       <==> NUL !in text && GROUP !in text
  {
    if w != ClientGroup(text) {
      assert w[1..][..|text|] == w[..|text| + 1][1..] == text;
    }
    WireCStr(text, w[1..]);
    ClientReads(GROUP, source, w[1..]);
    UntilIsAll(text, GROUP);
  }
}
