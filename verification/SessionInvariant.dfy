/** What every stream session and every client keeps, step by step. */
module SessionInvariant {
  import opened Model
  import opened Mailboxes
  import opened Reader
  import opened Cluster
  import opened TailerInvariant
  import S = Store
  import SI = StoreInvariant

  // ---- Channels ----------------------------------------------------------------------------------

  /** The queue holds the slice from where the session has sent to where the channel reaches. */
  ghost predicate ChannelOk(cfg: Config, st: S.Store, aggregate: Option<ItemId>, ch: Channel, edge: nat) {
    && ch.box.aggregate == aggregate && ch.box.capacity == cfg.capacity
    && ch.joined <= ch.reach <= Head(st.published)
    && Slice(st, aggregate, ch.joined, ch.reach, ch.accepted)
    && Sound(st, aggregate, ch.joined, ch.reach, Carried(ch.box.queue))
    && Complete(st, aggregate, Max(edge, ch.joined), ch.reach, Carried(ch.box.queue))
    && (0 < cfg.capacity ==> |ch.box.queue| <= cfg.capacity)
  }

  lemma SoundSnoc(st: S.Store, aggregate: Option<ItemId>, lo: nat, hi: nat, out: seq<Envelope>, e: Envelope)
    requires Sound(st, aggregate, lo, hi, out) && lo <= hi
    requires e in st.published && Wants(aggregate, e) && hi < e.pos
    ensures Sound(st, aggregate, lo, e.pos, out + [e])
  {
    assert forall i :: 0 <= i < |out| ==> out[i] in out;
  }

  /** Extending the range over positions that hold nothing but trimmed events and `e`. */
  lemma CompleteSnoc(st: S.Store, aggregate: Option<ItemId>, lo: nat, hi: nat, out: seq<Envelope>, e: Envelope)
    requires Complete(st, aggregate, lo, hi, out) && hi < e.pos && e in st.published && Rising(st.published)
    requires forall d :: d in st.published && hi < d.pos < e.pos ==> Trimmed(st, d)
    ensures Complete(st, aggregate, lo, e.pos, if Wants(aggregate, e) then out + [e] else out)
  {
    forall d | d in st.published && Wants(aggregate, d) && lo < d.pos <= e.pos && d != e
      ensures d in out || Trimmed(st, d)
    {
      SamePosition(st, d, e);
    }
  }

  lemma SamePosition(st: S.Store, d: Envelope, e: Envelope)
    requires Rising(st.published) && d in st.published && e in st.published
    ensures d.pos == e.pos ==> d == e
  {
    var i :| 0 <= i < |st.published| && st.published[i] == d;
    var j :| 0 <= j < |st.published| && st.published[j] == e;
  }

  /** What a later queue holds beyond an earlier one lies above the earlier reach. */
  ghost predicate OnlyAdds(ch: Channel, ch': Channel) {
    && ch.reach <= ch'.reach
    && (forall e :: e in Carried(ch'.box.queue) ==> e in Carried(ch.box.queue) || ch.reach < e.pos)
  }

  /** One envelope offered to a channel that has been offered everything before it. */
  lemma PushKeepsChannel(cfg: Config, st: S.Store, aggregate: Option<ItemId>, ch: Channel, edge: nat, e: Envelope)
    requires Rising(st.published) && ChannelOk(cfg, st, aggregate, ch, edge)
    requires e in st.published
    requires !ch.box.overflowed ==>
      ch.reach < e.pos && forall d :: d in st.published && ch.reach < d.pos < e.pos ==> Trimmed(st, d)
    ensures var ch' := PushChannel(ch, e);
            && ChannelOk(cfg, st, aggregate, ch', edge)
            && (!ch'.box.overflowed ==> !ch.box.overflowed && ch'.reach == e.pos)
            && ch'.joined == ch.joined && ch.reach <= ch'.reach && (ch'.reach == ch.reach || ch'.reach == e.pos)
            && OnlyAdds(ch, ch')
  {
    HeadIsTop(st, e);
    if !ch.box.overflowed {
      var q := Carried(ch.box.queue);
      CompleteSnoc(st, aggregate, ch.joined, ch.reach, ch.accepted, e);
      CompleteSnoc(st, aggregate, Max(edge, ch.joined), ch.reach, q, e);
      if Wants(aggregate, e) {
        SoundSnoc(st, aggregate, ch.joined, ch.reach, ch.accepted, e);
        SoundSnoc(st, aggregate, ch.joined, ch.reach, q, e);
        CarriedSnoc(ch.box.queue, Carry(e));
      }
    }
  }

  function Below(rows: seq<Envelope>, from: nat, n: nat): nat
    requires n <= |rows|
  {
    if n == 0 then from else rows[n - 1].pos
  }

  /** Row `n` comes next: between it and the row before lie only trimmed events. */
  ghost predicate NextRow(st: S.Store, rows: seq<Envelope>, from: nat, n: nat)
    requires n < |rows|
  {
    && rows[n] in st.published && Below(rows, from, n) < rows[n].pos
    && (forall d :: d in st.published && Below(rows, from, n) < d.pos < rows[n].pos ==> Trimmed(st, d))
  }

  lemma SliceRowsFollow(st: S.Store, rows: seq<Envelope>, from: nat, n: nat)
    requires Slice(st, None, from, Head(rows), rows) && n < |rows|
    ensures NextRow(st, rows, from, n)
  {
    assert rows[n] in rows;
    RisingBelowHead(rows, rows[n]);
    forall d | d in st.published && Below(rows, from, n) < d.pos < rows[n].pos ensures Trimmed(st, d) {
      assert forall i :: 0 <= i < |rows| ==> rows[i].pos <= Below(rows, from, n) || rows[n].pos <= rows[i].pos;
      assert n > 0 ==> rows[n - 1] in rows;
    }
  }

  /** A whole batch: the rows that follow the channel's reach. */
  lemma {:induction false} DeliverKeepsChannel(
    cfg: Config, st: S.Store, aggregate: Option<ItemId>, ch: Channel, edge: nat, rows: seq<Envelope>, n: nat, from: nat)
    requires Rising(st.published) && ChannelOk(cfg, st, aggregate, ch, edge)
    requires n <= |rows| && forall k: nat :: k < |rows| ==> NextRow(st, rows, from, k)
    requires ch.reach <= from && (!ch.box.overflowed ==> ch.reach == from)
    ensures var ch' := DeliverChannel(ch, rows[..n]);
            && ChannelOk(cfg, st, aggregate, ch', edge)
            && ch'.joined == ch.joined && OnlyAdds(ch, ch')
            && ch'.reach <= Below(rows, from, n) && (!ch'.box.overflowed ==> ch'.reach == Below(rows, from, n))
  {
    if n > 0 {
      DeliverKeepsChannel(cfg, st, aggregate, ch, edge, rows, n - 1, from);
      var prev := DeliverChannel(ch, rows[..n - 1]);
      assert NextRow(st, rows, from, n - 1);
      assert rows[..n][..n - 1] == rows[..n - 1];
      assert DeliverChannel(ch, rows[..n]) == PushChannel(prev, rows[n - 1]);
      PushKeepsChannel(cfg, st, aggregate, prev, edge, rows[n - 1]);
    } else {
      assert DeliverChannel(ch, rows[..n]) == ch;
    }
  }

  // ---- Sessions ----------------------------------------------------------------------------------

  predicate Serving(tailers: map<nat, Tailer>, w: nat) {
    w in tailers && !tailers[w].phase.Down? && !tailers[w].phase.Starting?
  }

  /** What the session has sent is the slice from its floor to its edge; the wire is the part not yet received. */
  ghost predicate BasicOk(st: S.Store, c: Client, z: Session) {
    && z.after <= z.floor <= z.edge && (z.edge <= Head(st.published) || z.edge == z.floor)
    && c.reader.cursor <= z.edge && (c.reader.cursor == z.after || z.floor <= c.reader.cursor)
    && (WantsReplay(c, z.after) ==> z.floor == z.after)
    && Slice(st, c.aggregate, Max(c.reader.cursor, z.floor), z.edge, z.wire)
    && Slice(st, c.aggregate, z.floor, z.edge, z.sent)
  }

  ghost predicate Live(cfg: Config, st: S.Store, tailers: map<nat, Tailer>, c: Client, z: Session) {
    && Serving(tailers, z.worker)
    && ChannelOk(cfg, st, c.aggregate, z.chan, z.edge)
    && z.chan.reach <= tailers[z.worker].cursor
    && (!z.chan.box.overflowed ==> z.chan.reach == tailers[z.worker].cursor)
  }

  /** The seam: nothing the filter wants is left between what was sent and where the queue begins. */
  ghost predicate SeamClosed(st: S.Store, c: Client, z: Session, skip: nat) {
    && skip <= z.edge <= Max(skip, z.chan.reach)
    && Complete(st, c.aggregate, z.edge, z.chan.joined, [])
    && (forall e :: e in Carried(z.chan.box.queue) && skip < e.pos ==> z.edge < e.pos)
  }

  ghost predicate PageOk(st: S.Store, c: Client, z: Session, rest: seq<Envelope>, short: bool, upto: nat) {
    && rest != []
    && Slice(st, c.aggregate, z.edge, upto, rest)
    && upto <= Head(st.published)
    && (short ==> z.chan.joined <= upto)
  }

  /** Not subscribed yet: nothing has been sent. */
  ghost predicate Idle(cfg: Config, c: Client, z: Session) {
    && z.floor == z.after == z.edge == c.reader.cursor
    && z.wire == [] && z.sent == [] && z.chan.accepted == []
    && z.chan.box == Mailbox(cfg.capacity, c.aggregate, z.after, [], false)
  }

  ghost predicate PhaseOk(cfg: Config, st: S.Store, tailers: map<nat, Tailer>, c: Client, z: Session) {
    match z.phase
    case Opened => Serving(tailers, z.worker) && Idle(cfg, c, z)
    case Cleared => Serving(tailers, z.worker) && Idle(cfg, c, z)
    case Replaying => Live(cfg, st, tailers, c, z)
    case Sending(rest, short, upto) => Live(cfg, st, tailers, c, z) && PageOk(st, c, z, rest, short, upto)
    case Pumping(skip) => Live(cfg, st, tailers, c, z) && SeamClosed(st, c, z, skip)
    case Closed(_) => true
  }

  // ---- Clients -----------------------------------------------------------------------------------

  function Positions(log: seq<Envelope>): (r: seq<nat>)
    ensures |r| == |log| && forall i :: 0 <= i < |log| ==> r[i] == log[i].pos
  {
    seq(|log|, i requires 0 <= i < |log| => log[i].pos)
  }

  /** The first cursor greater than 0: where it was started, or just below the first event it got. */
  function Base(c: Client): nat {
    if c.initial > 0 || c.log == [] || c.log[0].pos == 0 then c.initial else c.log[0].pos - 1
  }

  ghost predicate ClientOk(st: S.Store, c: Client) {
    && Sound(st, c.aggregate, Base(c), c.reader.cursor, c.log)
    && c.reader == ShowAll(Fresh(c.initial), Positions(c.log))
    && c.reader.duplicates == 0
    && c.reader.cursor == (if c.log == [] then c.initial else Head(c.log))
  }

  ghost predicate ClientInv(cfg: Config, st: S.Store, tailers: map<nat, Tailer>, c: Client) {
    && ClientOk(st, c)
    && (c.conn.Some? ==> BasicOk(st, c, c.conn.value) && PhaseOk(cfg, st, tailers, c, c.conn.value))
  }

  // ---- The database and other workers move on -----------------------------------------------------

  lemma ChannelGrows(cfg: Config, st: S.Store, st': S.Store, aggregate: Option<ItemId>, ch: Channel, edge: nat)
    requires Grows(st, st') && ChannelOk(cfg, st, aggregate, ch, edge)
    ensures ChannelOk(cfg, st', aggregate, ch, edge)
  {
    SliceGrows(st, st', aggregate, ch.joined, ch.reach, ch.accepted);
    SliceGrows(st, st', aggregate, Max(edge, ch.joined), ch.reach, Carried(ch.box.queue));
  }

  lemma BasicGrows(st: S.Store, st': S.Store, c: Client, z: Session)
    requires Grows(st, st') && BasicOk(st, c, z)
    ensures BasicOk(st', c, z)
  {
    SliceGrows(st, st', c.aggregate, Max(c.reader.cursor, z.floor), z.edge, z.wire);
    SliceGrows(st, st', c.aggregate, z.floor, z.edge, z.sent);
  }

  /** The session's worker still serves, and at the same cursor if the session is subscribed. */
  ghost predicate SameWorker(tailers: map<nat, Tailer>, tailers': map<nat, Tailer>, z: Session) {
    Serving(tailers, z.worker) ==>
      Serving(tailers', z.worker) && (Subscribed(z) ==> tailers'[z.worker].cursor == tailers[z.worker].cursor)
  }

  lemma PhaseGrows(
    cfg: Config, st: S.Store, st': S.Store, tailers: map<nat, Tailer>, tailers': map<nat, Tailer>,
    c: Client, z: Session)
    requires Grows(st, st') && SameWorker(tailers, tailers', z)
    requires PhaseOk(cfg, st, tailers, c, z)
    ensures PhaseOk(cfg, st', tailers', c, z)
  {
    if Subscribed(z) { ChannelGrows(cfg, st, st', c.aggregate, z.chan, z.edge); }
    match z.phase {
      case Sending(rest, short, upto) => SliceGrows(st, st', c.aggregate, z.edge, upto, rest);
      case Pumping(skip) => SliceGrows(st, st', c.aggregate, z.edge, z.chan.joined, []);
      case _ =>
    }
  }

  lemma ClientGrows(
    cfg: Config, st: S.Store, st': S.Store, tailers: map<nat, Tailer>, tailers': map<nat, Tailer>, c: Client)
    requires Grows(st, st') && ClientInv(cfg, st, tailers, c)
    requires c.conn.Some? ==> SameWorker(tailers, tailers', c.conn.value)
    ensures ClientInv(cfg, st', tailers', c)
  {
    if c.conn.Some? {
      BasicGrows(st, st', c, c.conn.value);
      PhaseGrows(cfg, st, st', tailers, tailers', c, c.conn.value);
    }
  }

  // ---- Sending -----------------------------------------------------------------------------------

  /** `e` is the next event the session owes: between its edge and `e` lie only trimmed ones. */
  ghost predicate NextOwed(st: S.Store, c: Client, edge: nat, e: Envelope) {
    && e in st.published && Wants(c.aggregate, e) && edge < e.pos
    && (forall d :: d in st.published && Wants(c.aggregate, d) && edge < d.pos < e.pos ==> Trimmed(st, d))
  }

  lemma SliceSnoc(st: S.Store, aggregate: Option<ItemId>, lo: nat, hi: nat, out: seq<Envelope>, e: Envelope)
    requires Rising(st.published) && Slice(st, aggregate, lo, hi, out) && lo <= hi
    requires e in st.published && Wants(aggregate, e) && hi < e.pos
    requires forall d :: d in st.published && Wants(aggregate, d) && hi < d.pos < e.pos ==> Trimmed(st, d)
    ensures Slice(st, aggregate, lo, e.pos, out + [e])
  {
    SoundSnoc(st, aggregate, lo, hi, out, e);
    forall d | d in st.published && Wants(aggregate, d) && lo < d.pos <= e.pos && d != e
      ensures d in out || Trimmed(st, d)
    {
      SamePosition(st, d, e);
    }
  }

  lemma SendKeepsBasic(st: S.Store, c: Client, z: Session, e: Envelope)
    requires Rising(st.published) && BasicOk(st, c, z) && NextOwed(st, c, z.edge, e)
    ensures BasicOk(st, c, Send(z, e))
  {
    SliceSnoc(st, c.aggregate, Max(c.reader.cursor, z.floor), z.edge, z.wire, e);
    SliceSnoc(st, c.aggregate, z.floor, z.edge, z.sent, e);
    HeadIsTop(st, e);
  }

  /** A channel stays good when the session's edge moves up and nothing is drawn. */
  lemma EdgeMovesUp(cfg: Config, st: S.Store, tailers: map<nat, Tailer>, c: Client, z: Session, z': Session)
    requires Live(cfg, st, tailers, c, z) && z.edge <= z'.edge && z'.chan == z.chan && z'.worker == z.worker
    ensures Live(cfg, st, tailers, c, z')
  {
  }

  lemma FirstOfSlice(st: S.Store, c: Client, edge: nat, hi: nat, rest: seq<Envelope>)
    requires Slice(st, c.aggregate, edge, hi, rest) && rest != []
    ensures NextOwed(st, c, edge, rest[0])
    ensures Slice(st, c.aggregate, rest[0].pos, hi, rest[1..])
  {
    assert rest[0] in rest;
    forall d | d in rest[1..] ensures d in rest && rest[0].pos < d.pos {
      var i :| 0 <= i < |rest[1..]| && rest[1..][i] == d;
      assert rest[i + 1] == d;
    }
    forall d | d in rest && d != rest[0] ensures d in rest[1..] && rest[0].pos < d.pos {
      var i :| 0 <= i < |rest| && rest[i] == d;
      assert rest[1..][i - 1] == d;
    }
  }

  lemma ReplaySendKeeps(cfg: Config, st: S.Store, tailers: map<nat, Tailer>, c: Client, z: Session)
    requires Rising(st.published) && BasicOk(st, c, z) && PhaseOk(cfg, st, tailers, c, z)
    requires z.phase.Sending? && z.phase.rest != []
    ensures var z', rest := Send(z, z.phase.rest[0]), z.phase.rest;
            var z'' := if |rest| == 1 then PageSent(z', z.phase.short)
                       else z'.(phase := Sending(rest[1..], z.phase.short, z.phase.upto));
            BasicOk(st, c, z'') && PhaseOk(cfg, st, tailers, c, z'')
  {
    var Sending(rest, short, upto) := z.phase;
    FirstOfSlice(st, c, z.edge, upto, rest);
    SendKeepsBasic(st, c, z, rest[0]);
    var z' := Send(z, rest[0]);
    EdgeMovesUp(cfg, st, tailers, c, z, z');
    if |rest| == 1 {
      assert rest[1..] == [];
    }
  }

  lemma ReplayFetchKeeps(cfg: Config, st: S.Store, tailers: map<nat, Tailer>, c: Client, z: Session)
    requires SI.Inv(st) && ValidConfig(cfg) && BasicOk(st, c, z) && PhaseOk(cfg, st, tailers, c, z)
    requires z.phase.Replaying?
    ensures var rows := S.SelectStream(st.outbox, c.aggregate, z.edge, cfg.page);
            var short := |rows| < cfg.page;
            var upto := if short then Head(st.published) else Head(rows);
            var z' := if rows == [] then PageSent(z, true) else z.(phase := Sending(rows, short, upto));
            BasicOk(st, c, z') && PhaseOk(cfg, st, tailers, c, z')
  {
    PageIsSlice(st, c.aggregate, z.edge, cfg.page);
  }

  // ---- Pumping -----------------------------------------------------------------------------------

  lemma {:induction false} CarriedHead(q: seq<Entry>)
    requires q != []
    ensures Carried(q) == (if q[0].Carry? then [q[0].e] else []) + Carried(q[1..])
  {
    if |q| == 1 {
      assert q[..0] == [] && q[1..] == [];
    } else {
      var n := |q| - 1;
      CarriedHead(q[..n]);
      assert q[..n][1..] == q[1..][..n - 1];
    }
  }

  /** The head of a live queue that the pump does not skip is the next event the session owes. */
  lemma HeadIsNextOwed(cfg: Config, st: S.Store, tailers: map<nat, Tailer>, c: Client, z: Session)
    requires Live(cfg, st, tailers, c, z) && z.phase.Pumping? && SeamClosed(st, c, z, z.phase.skip)
    requires z.chan.box.queue != [] && z.chan.box.queue[0].Carry? && z.phase.skip < z.chan.box.queue[0].e.pos
    ensures NextOwed(st, c, z.edge, z.chan.box.queue[0].e) && z.chan.box.queue[0].e.pos <= z.chan.reach
  {
    var q, e := Carried(z.chan.box.queue), z.chan.box.queue[0].e;
    CarriedHead(z.chan.box.queue);
    assert q[0] == e && e in q;
    assert forall i :: 0 <= i < |q| ==> e.pos <= q[i].pos;
  }

  lemma TailRises(q: seq<Envelope>, head: Envelope, q': seq<Envelope>)
    requires q == [head] + q' && Rising(q)
    ensures Rising(q')
    ensures forall e :: e in q <==> e == head || e in q'
    ensures forall e :: e in q' ==> head.pos < e.pos
  {
    assert forall i :: 0 <= i < |q'| ==> q'[i] == q[i + 1];
    forall e | e in q' ensures head.pos < e.pos {
      var i :| 0 <= i < |q'| && q'[i] == e;
      assert q[0].pos < q[i + 1].pos;
    }
  }

  /** Drawing the head leaves a good channel, as long as what is drawn is at or below the new edge. */
  lemma DrawKeepsChannel(cfg: Config, st: S.Store, aggregate: Option<ItemId>, ch: Channel, edge: nat, edge': nat)
    requires ChannelOk(cfg, st, aggregate, ch, edge) && edge <= edge' && ch.box.queue != []
    requires ch.box.queue[0].Carry? && ch.box.queue[0].e.pos <= edge'
    ensures var ch' := ch.(box := ch.box.(queue := ch.box.queue[1..]));
            && ChannelOk(cfg, st, aggregate, ch', edge')
            && (forall e :: e in Carried(ch'.box.queue) ==> e in Carried(ch.box.queue) && ch.box.queue[0].e.pos < e.pos)
  {
    var q, q', head := Carried(ch.box.queue), Carried(ch.box.queue[1..]), ch.box.queue[0].e;
    CarriedHead(ch.box.queue);
    assert q == [head] + q';
    TailRises(q, head, q');
  }

  lemma PumpKeeps(cfg: Config, st: S.Store, tailers: map<nat, Tailer>, c: Client, z: Session)
    requires Rising(st.published) && BasicOk(st, c, z) && PhaseOk(cfg, st, tailers, c, z)
    requires z.phase.Pumping? && z.chan.box.queue != []
    ensures BasicOk(st, c, PumpOnce(z)) && PhaseOk(cfg, st, tailers, c, PumpOnce(z))
  {
    var box, z' := z.chan.box, PumpOnce(z);
    if box.queue[0].Carry? {
      var e := box.queue[0].e;
      if z.phase.skip < e.pos {
        HeadIsNextOwed(cfg, st, tailers, c, z);
        SendKeepsBasic(st, c, z, e);
      }
      DrawKeepsChannel(cfg, st, c.aggregate, z.chan, z.edge, z'.edge);
    }
  }

  // ---- The other steps of a session ----------------------------------------------------------------

  lemma SubscribeKeeps(cfg: Config, st: S.Store, tailers: map<nat, Tailer>, c: Client, z: Session)
    requires BasicOk(st, c, z) && PhaseOk(cfg, st, tailers, c, z) && z.phase.Cleared?
    requires z.worker in tailers && TailerOk(st, tailers[z.worker])
    ensures var cursor := tailers[z.worker].cursor;
            var floor := if cursor < z.after then z.after else cursor;
            var z' := if WantsReplay(c, z.after) then Joined(z, cursor).(phase := Replaying)
                      else Joined(z, cursor).(phase := Pumping(z.after), edge := floor, floor := floor);
            BasicOk(st, c, z') && PhaseOk(cfg, st, tailers, c, z')
  {
    assert Carried(z.chan.box.queue) == [];
  }

  lemma HandOffKeepsChannel(cfg: Config, st: S.Store, c: Client, z: Session, t: Tailer)
    requires Rising(st.published) && ChannelOk(cfg, st, c.aggregate, z.chan, z.edge)
    requires z.chan.reach <= t.cursor && (!z.chan.box.overflowed ==> z.chan.reach == t.cursor)
    requires TailerOk(st, t) && t.phase.Fetched?
    ensures var ch', t' := DeliverChannel(z.chan, t.phase.rows), AfterHandOff(cfg, t);
            && ChannelOk(cfg, st, c.aggregate, ch', z.edge) && OnlyAdds(z.chan, ch') && ch'.joined == z.chan.joined
            && ch'.reach <= t'.cursor && (!ch'.box.overflowed ==> ch'.reach == t'.cursor)
  {
    var rows := t.phase.rows;
    forall k: nat | k < |rows| ensures NextRow(st, rows, t.cursor, k) {
      SliceRowsFollow(st, rows, t.cursor, k);
    }
    DeliverKeepsChannel(cfg, st, c.aggregate, z.chan, z.edge, rows, |rows|, t.cursor);
    assert rows[..|rows|] == rows;
  }

  /** New envelopes above the channel's reach disturb neither a page being sent nor a closed seam. */
  lemma DeliveryKeepsPhase(
    cfg: Config, st: S.Store, tailers: map<nat, Tailer>, tailers': map<nat, Tailer>, c: Client, z: Session, z': Session)
    requires PhaseOk(cfg, st, tailers, c, z) && Subscribed(z)
    requires z' == z.(chan := z'.chan) && OnlyAdds(z.chan, z'.chan) && z'.chan.joined == z.chan.joined
    requires Live(cfg, st, tailers', c, z')
    ensures PhaseOk(cfg, st, tailers', c, z')
  {
    match z.phase {
      case Sending(rest, short, upto) => assert PageOk(st, c, z', rest, short, upto);
      case Pumping(skip) => assert SeamClosed(st, c, z, skip) && SeamClosed(st, c, z', skip);
      case _ =>
    }
  }

  lemma HandOffKeepsSession(cfg: Config, st: S.Store, tailers: map<nat, Tailer>, c: Client, z: Session)
    requires Rising(st.published) && BasicOk(st, c, z) && PhaseOk(cfg, st, tailers, c, z) && Subscribed(z)
    requires TailerOk(st, tailers[z.worker]) && tailers[z.worker].phase.Fetched?
    ensures var t := tailers[z.worker];
            var z' := Delivered(z, t.phase.rows);
            BasicOk(st, c, z') && PhaseOk(cfg, st, tailers[z.worker := AfterHandOff(cfg, t)], c, z')
  {
    hide ChannelOk, PageOk, SeamClosed, TailerOk, OnlyAdds;
    var t := tailers[z.worker];
    var tailers' := tailers[z.worker := AfterHandOff(cfg, t)];
    var z' := z.(chan := DeliverChannel(z.chan, t.phase.rows));
    assert Live(cfg, st, tailers, c, z);
    HandOffKeepsChannel(cfg, st, c, z, t);
    assert Live(cfg, st, tailers', c, z');
    DeliveryKeepsPhase(cfg, st, tailers, tailers', c, z, z');
  }

  lemma InterruptKeepsSession(cfg: Config, st: S.Store, tailers: map<nat, Tailer>, c: Client, z: Session)
    requires BasicOk(st, c, z) && PhaseOk(cfg, st, tailers, c, z) && Subscribed(z)
    ensures BasicOk(st, c, Signalled(z)) && PhaseOk(cfg, st, tailers, c, Signalled(z))
  {
    CarriedSnoc(z.chan.box.queue, Stop);
    assert Carried(z.chan.box.queue) + [] == Carried(z.chan.box.queue);
    var z' := Signalled(z);
    assert Carried(z'.chan.box.queue) == Carried(z.chan.box.queue);
    assert Live(cfg, st, tailers, c, z');
  }

  // ---- Receiving ---------------------------------------------------------------------------------

  lemma PositionsSnoc(log: seq<Envelope>, e: Envelope)
    ensures Positions(log + [e]) == Positions(log) + [e.pos]
  {
  }

  /** What arrives is above the cursor: the server side never sends a client the same event twice. */
  lemma WireAboveCursor(st: S.Store, c: Client, z: Session)
    requires BasicOk(st, c, z) && z.wire != []
    ensures c.reader.cursor < z.wire[0].pos && z.floor < z.wire[0].pos
  {
    assert z.wire[0] in z.wire;
  }

  function Received(c: Client, e: Envelope): Client {
    c.(reader := Show(c.reader, e.pos), log := if e.pos > c.reader.cursor then c.log + [e] else c.log)
  }

  lemma ReceiveKeepsReader(c: Client, e: Envelope)
    requires c.reader == ShowAll(Fresh(c.initial), Positions(c.log)) && c.reader.cursor < e.pos
    ensures Received(c, e).reader == ShowAll(Fresh(c.initial), Positions(Received(c, e).log))
    ensures Received(c, e).reader.duplicates == c.reader.duplicates && Received(c, e).reader.cursor == e.pos
  {
    PositionsSnoc(c.log, e);
    var ps := Positions(c.log + [e]);
    assert ps[..|ps| - 1] == Positions(c.log);
  }

  lemma ReceiveKeepsClient(st: S.Store, c: Client, z: Session)
    requires ClientOk(st, c) && BasicOk(st, c, z) && z.wire != []
    ensures ClientOk(st, Received(c, z.wire[0]))
  {
    var e := z.wire[0];
    var c' := Received(c, e);
    WireAboveCursor(st, c, z);
    assert e in z.wire;
    ReceiveKeepsReader(c, e);
    if c.log != [] {
      assert c'.log[0] == c.log[0] && Base(c') == Base(c);
      SoundSnoc(st, c.aggregate, Base(c), c.reader.cursor, c.log, e);
    }
  }

  lemma ReceiveKeepsBasic(st: S.Store, c: Client, z: Session)
    requires BasicOk(st, c, z) && z.wire != []
    ensures BasicOk(st, Received(c, z.wire[0]), z.(wire := z.wire[1..]))
  {
    WireAboveCursor(st, c, z);
    FirstOfSlice(st, c, Max(c.reader.cursor, z.floor), z.edge, z.wire);
    assert z.wire[0] in z.wire;
  }

  lemma ReceiveKeepsPhase(cfg: Config, st: S.Store, tailers: map<nat, Tailer>, c: Client, z: Session)
    requires PhaseOk(cfg, st, tailers, c, z) && z.wire != []
    ensures PhaseOk(cfg, st, tailers, Received(c, z.wire[0]), z.(wire := z.wire[1..]))
  {
  }
}
