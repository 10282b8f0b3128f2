/** The connection layer as it runs: the request list walked and changed in place, events on the looper. */
module ConnService {
  import opened Looper
  import opened ConnRequests

  class ConnManager {
    const looper: MessageQueue<Event>
    var reqs: seq<Req>
    var notes: seq<Note>
    ghost var made: seq<Req>

    ghost predicate Valid()
      reads this, looper
    {
      looper.Valid()
    }

    ghost function View(): St
      reads this, looper
    {
      St(looper.list, reqs, notes, made)
    }

    constructor ()
      ensures Valid() && fresh(looper) && View() == Initial()
    {
      looper := new MessageQueue();
      reqs, notes, made := [], [], [];
    }

    method FindConnRequestByFd(fd: int) returns (i: nat)
      ensures i == FindFd(reqs, fd)
    {
      i := 0;
      while i < |reqs|
        invariant 0 <= i <= |reqs|
        invariant i + FindFd(reqs[i..], fd) == FindFd(reqs, fd)
      {
        if reqs[i].fd == fd {
          return;
        }
        assert reqs[i..][1..] == reqs[i + 1..];
        i := i + 1;
      }
    }

    method FindConnRequestByRequestId(id: nat) returns (i: nat)
      ensures i == FindId(reqs, id)
    {
      i := 0;
      while i < |reqs|
        invariant 0 <= i <= |reqs|
        invariant i + FindId(reqs[i..], id) == FindId(reqs, id)
      {
        if reqs[i].id == id {
          return;
        }
        assert reqs[i..][1..] == reqs[i + 1..];
        i := i + 1;
      }
    }

    method ConnectTimeout(id: nat)
      requires Valid()
      modifies this
      ensures Valid() && View() == TimedOut(old(View()), id)
    {
      var i := FindConnRequestByRequestId(id);
      if i < |reqs| {
        reqs := reqs[..i] + reqs[i + 1..];
      }
      notes := notes + [Note(id, CONN_TIMEOUT, NoConn)];
    }

    method ConnectCmd(id: nat, link: Link, reuse: bool, fd: int, t: int)
      requires Valid()
      modifies this, looper
      ensures Valid() && View() == Command(old(View()), id, link, reuse, fd, t)
    {
      if link == SessionKey && !reuse {
        return;
      }
      if fd < 0 {
        looper.RemoveMessages(Timeout(id));
        notes := notes + [Note(id, CONN_FAIL, NoConn)];
        return;
      }
      reqs := reqs + [Req(id, fd, link)];
      made := made + [Req(id, fd, link)];
      if reuse {
        looper.PostMessageAtTime(Msg(t, Result(fd, OK, link == SessionKey)));
      }
    }

    method ConnectResult(fd: int, ret: Ret, viaSessionKey: bool)
      requires Valid()
      modifies this, looper
      ensures Valid() && View() == Resulted(old(View()), fd, ret, viaSessionKey)
    {
      var i := FindConnRequestByFd(fd);
      if i == |reqs| {
        return;
      }
      var r := reqs[i];
      looper.RemoveMessages(Timeout(r.id));
      if ret == OK {
        var link := if viaSessionKey then SessionKey else if r.link == Usb then Usb else Wifi;
        notes := notes + [Note(r.id, OK, Conn(link, fd))];
      } else {
        notes := notes + [Note(r.id, ret, NoConn)];
      }
      reqs := reqs[..i] + reqs[i + 1..];
    }

    method ConnectAuthDevice(id: nat, link: Link, t1: int, t2: int, posted: bool, fd: int)
      requires Valid()
      modifies this, looper
      ensures Valid() && View() == Connect(old(View()), id, link, t1, t2, posted, fd)
    {
      looper.PostMessageAtTime(Msg(t1 + CONNECT_TIMEOUT_US, Timeout(id)));
      if link == Session {
        notes := notes + [Note(id, OK, Conn(Session, fd))];
      } else if link != Unknown {
        if posted {
          looper.PostMessageAtTime(Msg(t2, Cmd(id, link)));
        } else {
          looper.RemoveMessages(Timeout(id));
        }
      }
    }

    method LoopOnce(now: int, reuse: bool, fd: int, t: int)
      requires Valid()
      modifies this, looper
      ensures Valid() && View() == Serve(old(View()), now, reuse, fd, t)
    {
      var due, xs := looper.TakeDue(now);
      if due {
        match xs[0] {
          case Timeout(id) => ConnectTimeout(id);
          case Cmd(id, link) => ConnectCmd(id, link, reuse, fd, t);
          case Result(f, ret, via) => ConnectResult(f, ret, via);
        }
      }
    }
  }
}
