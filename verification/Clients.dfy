/** The two clients' own code: the listener script and the load test's subscriber. */
module Clients {
  import opened Reader
  import Cluster

  /** What arrives: an event with its position, or a control message, which has a type instead. */
  datatype Message = Event(pos: nat) | Control

  function PositionsOf(messages: seq<Message>): seq<nat> {
    if messages == [] then []
    else
      var last := messages[|messages| - 1];
      PositionsOf(messages[..|messages| - 1]) + (if last.Event? then [last.pos] else [])
  }

  lemma {:induction false} ShowAllConcat(r: Reader, a: seq<nat>, b: seq<nat>)
    ensures ShowAll(ShowAll(r, a), b) == ShowAll(r, a + b)
  {
    if b == [] {
      assert a + b == a;
    } else {
      ShowAllConcat(r, a, b[..|b| - 1]);
      assert (a + b)[..|a + b| - 1] == a + b[..|b| - 1];
    }
  }

  lemma NoPositions(start: nat)
    ensures PositionsOf([]) == [] && Accepted(start, []) == [] && ShowAll(Fresh(start), []) == Fresh(start)
  {
  }

  lemma PositionsSnoc(messages: seq<Message>, k: nat)
    requires k < |messages|
    ensures PositionsOf(messages[..k + 1])
      == if messages[k].Event? then PositionsOf(messages[..k]) + [messages[k].pos] else PositionsOf(messages[..k])
  {
    assert messages[..k + 1][..k] == messages[..k];
  }

  /** One connection: what arrives on it, and how it ends. */
  datatype Ending = ClosedWith(code: int) | Lost | Interrupted

  datatype Connection = Connection(messages: seq<Message>, ending: Ending)

  /** Everything that arrives over these connections, in order. */
  function Arrivals(connections: seq<Connection>): seq<nat> {
    if connections == [] then []
    else Arrivals(connections[..|connections| - 1]) + PositionsOf(connections[|connections| - 1].messages)
  }

  class Listener {
    const reconnect: bool
    var cursor: nat
    var received: nat
    var duplicates: nat
    var gaps: seq<Gap>
    var reconnects: nat

    ghost function State(): Reader
      reads this
    {
      Reader(cursor, received, duplicates, gaps)
    }

    constructor (lastEventId: nat, reconnect: bool)
      ensures State() == Fresh(lastEventId) && this.reconnect == reconnect && reconnects == 0
    {
      cursor, received, duplicates, gaps, reconnects := lastEventId, 0, 0, [], 0;
      this.reconnect := reconnect;
    }

    method ShowEvent(pos: nat)
      modifies this`cursor, this`received, this`duplicates, this`gaps
      ensures State() == Show(old(State()), pos)
    {
      if pos <= cursor {
        duplicates := duplicates + 1;
        return;
      }
      if pos > cursor + 1 && received != 0 {
        gaps := gaps + [Gap(cursor + 1, pos - 1)];
      }
      cursor := pos;
      received := received + 1;
    }

    /** Reads one connection to its end. */
    method Listen(messages: seq<Message>)
      modifies this`cursor, this`received, this`duplicates, this`gaps
      ensures State() == ShowAll(old(State()), PositionsOf(messages))
    {
      ghost var before := State();
      for k := 0 to |messages|
        invariant State() == ShowAll(before, PositionsOf(messages[..k]))
      {
        PositionsSnoc(messages, k);
        if messages[k].Event? {
          ShowAllConcat(before, PositionsOf(messages[..k]), [messages[k].pos]);
          assert [messages[k].pos][..0] == [];
          ShowEvent(messages[k].pos);
        }
      }
      assert messages[..|messages|] == messages;
    }

    /**
     * Resumes from the cursor after every lost connection, so reconnecting is invisible to the reader: it sees one
     * stream of messages. Only a refused cursor (exit status 1), an interrupt, or having been told not to
     * reconnect ends it before its connections do. `n` is how many it used.
     */
    method Run(connections: seq<Connection>) returns (status: int, ghost n: nat)
      modifies this
      ensures n <= |connections|
      ensures State() == ShowAll(old(State()), Arrivals(connections[..n]))
      ensures status == 1 <==> n > 0 && connections[n - 1].ending == ClosedWith(4003)
      ensures status == 0 || status == 1
      ensures forall k :: 0 <= k < n - 1 ==>
        reconnect && connections[k].ending != ClosedWith(4003) && !connections[k].ending.Interrupted?
      ensures n < |connections| ==> reconnects == old(reconnects) + n - 1
      ensures n < |connections| ==>
        n > 0 && (connections[n - 1].ending == ClosedWith(4003) || connections[n - 1].ending.Interrupted? || !reconnect)
    {
      hide ShowAll, Show, PositionsOf;
      ghost var before := State();
      n := 0;
      assert ShowAll(before, Arrivals(connections[..0])) == before by { NothingShown(before); }
      for k := 0 to |connections|
        invariant n == k && reconnects == old(reconnects) + k && State() == ShowAll(before, Arrivals(connections[..k]))
        invariant forall j :: 0 <= j < k ==>
          reconnect && connections[j].ending != ClosedWith(4003) && !connections[j].ending.Interrupted?
      {
        NextConnection(before, connections, k);
        Listen(connections[k].messages);
        n := k + 1;
        match connections[k].ending {
          case ClosedWith(code) =>
            if code == Cluster.CURSOR_TOO_OLD {
              return 1, n;
            }
          case Interrupted => return 0, n;
          case Lost =>
        }
        if !reconnect {
          return 0, n;
        }
        reconnects := reconnects + 1;
      }
      assert connections[..|connections|] == connections;
      status := 0;
    }
  }

  lemma NothingShown(r: Reader)
    ensures ShowAll(r, []) == r
  {
  }

  lemma NextConnection(r: Reader, connections: seq<Connection>, k: nat)
    requires k < |connections|
    ensures ShowAll(r, Arrivals(connections[..k + 1]))
      == ShowAll(ShowAll(r, Arrivals(connections[..k])), PositionsOf(connections[k].messages))
  {
    hide ShowAll;
    assert connections[..k + 1][..k] == connections[..k];
    ShowAllConcat(r, Arrivals(connections[..k]), PositionsOf(connections[k].messages));
  }

  /** One more position, for the three fields the load test keeps. */
  lemma ReadOne(start: nat, ps: seq<nat>, pos: nat)
    ensures var r, r' := ShowAll(Fresh(start), ps), ShowAll(Fresh(start), ps + [pos]);
      if pos <= r.cursor then
        Accepted(start, ps + [pos]) == Accepted(start, ps) && r'.cursor == r.cursor && r'.duplicates == r.duplicates + 1
      else
        Accepted(start, ps + [pos]) == Accepted(start, ps) + [pos] && r'.cursor == pos && r'.duplicates == r.duplicates
  {
    assert (ps + [pos])[..|ps|] == ps;
  }

  /** The load test's subscriber: the same rule, but it keeps every accepted position instead of the gaps. */
  class Subscriber {
    var cursor: nat
    var seqs: seq<nat>
    var duplicates: nat

    constructor ()
      ensures cursor == 0 && seqs == [] && duplicates == 0
    {
      cursor, seqs, duplicates := 0, [], 0;
    }

    method Read(messages: seq<Message>)
      requires seqs == [] && duplicates == 0
      modifies this
      ensures var ps := PositionsOf(messages);
        && seqs == Accepted(old(cursor), ps)
        && cursor == ShowAll(Fresh(old(cursor)), ps).cursor
        && duplicates == ShowAll(Fresh(old(cursor)), ps).duplicates
    {
      hide PositionsOf, ShowAll, Show, Accepted;
      ghost var start := cursor;
      NoPositions(start);
      for k := 0 to |messages|
        invariant var ps := PositionsOf(messages[..k]);
          && seqs == Accepted(start, ps)
          && cursor == ShowAll(Fresh(start), ps).cursor
          && duplicates == ShowAll(Fresh(start), ps).duplicates
      {
        PositionsSnoc(messages, k);
        if messages[k].Control? {
          continue;
        }
        var pos := messages[k].pos;
        ReadOne(start, PositionsOf(messages[..k]), pos);
        if pos <= cursor {
          duplicates := duplicates + 1;
          continue;
        }
        cursor := pos;
        seqs := seqs + [pos];
      }
      assert messages[..|messages|] == messages;
    }

    /** The closed form agrees with the gaps a listener would have recorded from the same start. */
    method Gaps(ghost start: nat, ghost positions: seq<nat>) returns (gaps: int)
      requires seqs == Accepted(start, positions)
      ensures gaps == Width(ShowAll(Fresh(start), positions).gaps)
    {
      GapAccounting(start, positions);
      if |seqs| < 2 {
        return 0;
      }
      return seqs[|seqs| - 1] - seqs[0] + 1 - |seqs|;
    }
  }
}
