/** The client's roster and the rows it shows, as values. */
module ClientSpec {
  import opened Bytes
  import opened Protocol

  datatype Row = GroupRow | UserRow(name: bytes, own: bool)

  datatype Ui = Ui(users: seq<bytes>, rows: seq<Row>)

  /** The group row, then one row per name; the last name is the user's own. */
  function InitialRows(users: seq<bytes>, n: nat): (r: seq<Row>)
    requires n <= |users|
    ensures |r| == n + 1 && r[0] == GroupRow
    ensures forall i :: 0 <= i < n ==> r[i + 1] == UserRow(users[i], i == |users| - 1)
  {
    if n == 0 then [GroupRow]
    else InitialRows(users, n - 1) + [UserRow(users[n - 1], n == |users|)]
  }

  /** `reciveLogin`: None when the own name is there twice and the client closes. */
  function Login(text: bytes, own: bytes): Option<Ui> {
    var users := ParseRoster(text);
    if multiset(users)[own] > 1 then None else Some(Ui(users, InitialRows(users, |users|)))
  }

  /** QListWidget::takeItem: nothing happens outside the rows. */
  function TakeItem(rows: seq<Row>, i: int): seq<Row> {
    if 0 <= i < |rows| then RemoveAt(rows, i) else rows
  }

  function Left(ui: Ui, name: bytes): Ui {
    Ui(RemoveOne(ui.users, name), TakeItem(ui.rows, IndexOf(ui.users, name) + 1))
  }

  function Joined(ui: Ui, name: bytes): Ui {
    Ui(ui.users + [name], ui.rows + [UserRow(name, false)])
  }

  /** `Flush_Ui` on one message; None when it indexes a part the split did not produce. */
  function Flush(ui: Ui, content: bytes): Option<Ui> {
    if content == [] then None
    else if content[0] == PRIVATE || content[0] == GROUP then
      if ClientSplit(content[0], content).None? then None else Some(ui)
    else if content[0] == LEAVE then
      match NoticeName(LEAVE, content)
      case None => None
      case Some(name) => Some(Left(ui, name))
    else if content[0] == JOIN then
      match NoticeName(JOIN, content)
      case None => None
      case Some(name) => Some(Joined(ui, name))
    else Some(ui)
  }

  /**
   * The client refuses exactly the rosters in which the server joined a name that was taken; otherwise it shows the
   * names joined.
   */
  lemma LoginExact(others: seq<Name>, own: Name)
    requires NoDup(others) && NoPlus(others + [own]) && own != [] && [] !in others
    ensures var r := Login(RosterText(others + [own]), own);
      (r.None? <==> own in others) && (r.Some? ==> r.value.users == others + [own])
  {
    DuplicateAgreement(others, own);
  }

  /** The tagged byte strings a message cannot be split from: a private or group message with a single tag byte. */
  lemma FlushFails(ui: Ui, content: bytes)
    requires NUL !in content
    ensures Flush(ui, content).None? <==>
            content == [] || ((content[0] == PRIVATE || content[0] == GROUP) && multiset(content)[content[0]] == 1)
  {
    if content != [] {
      assert CStr(content) == content;
      SplitCount(content, content[0]);
      assert content[0] in content;
    }
  }

  /** Messages and unknown bytes never touch names or rows. */
  lemma FlushKeeps(ui: Ui, content: bytes)
    requires content != [] && content[0] != JOIN && content[0] != LEAVE
    ensures Flush(ui, content).Some? ==> Flush(ui, content).value == ui
  {
  }

  /** One row more than names, the group row first, row i + 1 standing for name i. */
  ghost predicate Aligned(ui: Ui) {
    && |ui.rows| == |ui.users| + 1
    && ui.rows[0] == GroupRow
    && forall i :: 0 <= i < |ui.users| ==> StandsFor(ui.rows[i + 1], ui.users[i])
  }

  ghost predicate StandsFor(row: Row, name: bytes) {
    row.UserRow? && row.name == name
  }

  lemma LoginAligned(text: bytes, own: bytes)
    ensures Login(text, own).Some? ==> Aligned(Login(text, own).value)
  {
    if Login(text, own).Some? {
      var ui := Login(text, own).value;
      forall i | 0 <= i < |ui.users| ensures StandsFor(ui.rows[i + 1], ui.users[i]) {
      }
    }
  }

  lemma JoinedAligned(ui: Ui, name: bytes)
    requires Aligned(ui)
    ensures Aligned(Joined(ui, name))
  {
    var r := Joined(ui, name);
    forall i | 0 <= i < |r.users| ensures StandsFor(r.rows[i + 1], r.users[i]) {
      if i < |ui.users| {
        assert r.rows[i + 1] == ui.rows[i + 1];
      }
    }
  }

  lemma RemovedAligned(ui: Ui, at: nat)
    requires Aligned(ui) && at < |ui.users|
    ensures Aligned(Ui(RemoveAt(ui.users, at), RemoveAt(ui.rows, at + 1)))
  {
    var r := Ui(RemoveAt(ui.users, at), RemoveAt(ui.rows, at + 1));
    forall i | 0 <= i < |r.users| ensures StandsFor(r.rows[i + 1], r.users[i]) {
      var k := if i < at then i else i + 1;
      assert r.users[i] == ui.users[k] && r.rows[i + 1] == ui.rows[k + 1];
    }
  }

  /** A leave notice keeps rows and names together exactly when the name is there; otherwise it takes the group row. */
  lemma LeftAligned(ui: Ui, name: bytes)
    requires Aligned(ui)
    ensures Aligned(Left(ui, name)) <==> name in ui.users
    ensures name !in ui.users ==> GroupRow !in Left(ui, name).rows && Left(ui, name).users == ui.users
  {
    var r := Left(ui, name);
    if name in ui.users {
      RemovedAligned(ui, IndexOf(ui.users, name));
    } else {
      assert |r.rows| == |ui.rows| - 1;
      forall row | row in r.rows ensures row != GroupRow {
        var i :| 0 <= i < |r.rows| && r.rows[i] == row;
        assert StandsFor(ui.rows[i + 1], ui.users[i]);
      }
    }
  }

  // ---------------------------------------------------------------- receiving

  function FlushOr(ui: Ui, buffer: bytes): Ui {
    var r := Flush(ui, CStr(buffer));
    if r.Some? then r.value else ui
  }

  function FlushAll(ui: Ui, buffers: seq<bytes>): Ui
    decreases |buffers|
  {
    if buffers == [] then ui else FlushAll(FlushOr(ui, buffers[0]), buffers[1..])
  }

  lemma {:induction false} FlushAllLast(ui: Ui, buffers: seq<bytes>, b: bytes)
    ensures FlushAll(ui, buffers + [b]) == FlushOr(FlushAll(ui, buffers), b)
    decreases |buffers|
  {
    if buffers == [] {
      assert buffers + [b] == [b];
      assert FlushAll(ui, [b]) == FlushAll(FlushOr(ui, b), [b][1..]);
    } else {
      FlushAllLast(FlushOr(ui, buffers[0]), buffers[1..], b);
      assert (buffers + [b])[1..] == buffers[1..] + [b];
    }
  }

  lemma FlushAllStep(ui: Ui, buffers: seq<bytes>, i: nat)
    requires i < |buffers|
    ensures FlushAll(ui, buffers[..i + 1]) == FlushOr(FlushAll(ui, buffers[..i]), buffers[i])
  {
    FlushAllLast(ui, buffers[..i], buffers[i]);
    assert buffers[..i + 1] == buffers[..i] + [buffers[i]];
  }
}
