/** The widget of EasyChat.cpp: only its roster list, its rows and the text received. */
module ClientWidget {
  import opened Bytes
  import opened Protocol
  import opened ClientSpec

  class Widget {
    var userList: seq<bytes>
    var rows: seq<Row>
    var nowContent: bytes

    ghost function View(): Ui
      reads this
    {
      Ui(userList, rows)
    }

    constructor ()
      ensures userList == [] && rows == [] && nowContent == []
    {
      userList, rows, nowContent := [], [], [];
    }

    method ReciveLogin(buffer: bytes, own: bytes) returns (open: bool)
      modifies this
      ensures open <==> Login(buffer, own).Some?
      ensures userList == ParseRoster(buffer)
      ensures open ==> View() == Login(buffer, own).value
      ensures !open ==> rows == old(rows)
      ensures nowContent == old(nowContent)
    {
      userList := ParseRoster(buffer);
      open := multiset(userList)[own] <= 1;
      if open {
        FillRows();
      }
    }

    method FillRows()
      modifies this`rows
      ensures rows == InitialRows(userList, |userList|)
    {
      rows := [GroupRow];
      for i := 0 to |userList|
        modifies this`rows
        invariant rows == InitialRows(userList, i)
      {
        rows := rows + [UserRow(userList[i], i == |userList| - 1)];
      }
    }

    /** `ok` is false when the split has too few parts; nothing changes then but the cleared text. */
    method FlushUi() returns (ok: bool)
      modifies this
      ensures ok <==> Flush(old(View()), old(nowContent)).Some?
      ensures View() == if ok then Flush(old(View()), old(nowContent)).value else old(View())
      ensures nowContent == []
    {
      var content := nowContent;
      nowContent := [];
      if content == [] {
        return false;
      }
      if content[0] == PRIVATE || content[0] == GROUP {
        ok := ClientSplit(content[0], content).Some?;
      } else if content[0] == LEAVE {
        var name := NoticeName(LEAVE, content);
        ok := name.Some?;
        if ok {
          UserLeft(name.value);
        }
      } else if content[0] == JOIN {
        var name := NoticeName(JOIN, content);
        ok := name.Some?;
        if ok {
          UserJoined(name.value);
        }
      } else {
        ok := true;
      }
    }

    method UserLeft(name: bytes)
      modifies this`rows, this`userList
      ensures View() == Left(old(View()), name)
    {
      var index := IndexOf(userList, name);
      rows := TakeItem(rows, index + 1);
      userList := RemoveOne(userList, name);
    }

    method UserJoined(name: bytes)
      modifies this`rows, this`userList
      ensures View() == Joined(old(View()), name)
    {
      userList := userList + [name];
      rows := rows + [UserRow(name, false)];
    }

    /** The receive loop: each buffer is appended up to its first NUL and flushed at once. */
    method Run(buffers: seq<bytes>)
      requires nowContent == []
      modifies this
      ensures View() == FlushAll(old(View()), buffers)
      ensures nowContent == []
    {
      for i := 0 to |buffers|
        invariant nowContent == []
        invariant View() == FlushAll(old(View()), buffers[..i])
      {
        FlushAllStep(old(View()), buffers, i);
        RecvOne(buffers[i]);
      }
      assert buffers[..|buffers|] == buffers;
    }

    method RecvOne(buffer: bytes)
      requires nowContent == []
      modifies this
      ensures View() == FlushOr(old(View()), buffer)
      ensures nowContent == []
    {
      nowContent := nowContent + CStr(buffer);
      assert nowContent == CStr(buffer);
      var ok := FlushUi();
    }
  }
}
