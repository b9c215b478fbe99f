/** The retention sweep's own code, and what a completed sweep leaves of the stream. */
module Retention {
  import opened Model
  import opened Ordering
  import opened Store
  import opened Queries
  import opened Database
  import opened TailerInvariant
  import opened Refusal
  import SI = StoreInvariant

  /** The database without its aged published rows. */
  function Swept(s: Store, cutoff: Time): Store {
    s.(outbox := s.outbox - AgedIds(s.outbox, cutoff))
  }

  // ---- One batch -----------------------------------------------------------------------------------

  lemma RemoveKeys(outbox: Outbox, ids: set<nat>)
    requires ids <= outbox.Keys
    ensures |outbox - ids| == |outbox| - |ids|
  {
    assert (outbox - ids).Keys == outbox.Keys - ids;
    assert |(outbox - ids).Keys| == |outbox.Keys| - |ids|;
  }

  lemma TakenAreAged(outbox: Outbox, cutoff: Time, limit: nat, ids: seq<nat>)
    requires IsAgedBatch(outbox, cutoff, limit, ids)
    ensures SetOf(ids) <= AgedIds(outbox, cutoff) && |SetOf(ids)| == |ids|
    ensures |ids| < limit ==> SetOf(ids) == AgedIds(outbox, cutoff)
  {
    AscendingSetSize(ids);
    forall id ensures id in AgedIds(outbox, cutoff) <==> Aged(outbox, cutoff, id) {
    }
  }

  lemma LeftAged(outbox: Outbox, cutoff: Time, taken: set<nat>)
    requires taken <= AgedIds(outbox, cutoff)
    ensures AgedIds(outbox - taken, cutoff) == AgedIds(outbox, cutoff) - taken
    ensures (outbox - taken) - AgedIds(outbox - taken, cutoff) == outbox - AgedIds(outbox, cutoff)
  {
  }

  /** What one batch takes comes off the aged rows, and a short batch takes the last of them. */
  lemma BatchTakes(outbox: Outbox, cutoff: Time, limit: nat)
    ensures var ids := AgedRows(outbox, cutoff, limit);
            var outbox' := DeleteRows(outbox, ids);
            && |outbox'| == |outbox| - |ids|
            && |AgedIds(outbox', cutoff)| == |AgedIds(outbox, cutoff)| - |ids|
            && outbox' - AgedIds(outbox', cutoff) == outbox - AgedIds(outbox, cutoff)
            && (|ids| < limit ==> AgedIds(outbox', cutoff) == {})
  {
    hide AgedRows, SetOf, AgedIds, IsAgedBatch;
    var ids := AgedRows(outbox, cutoff, limit);
    AgedRowsIsAgedBatch(outbox, cutoff, limit);
    TakenAreAged(outbox, cutoff, limit, ids);
    LeftAged(outbox, cutoff, SetOf(ids));
    AgedInTable(outbox, cutoff);
    RemoveKeys(outbox, SetOf(ids));
  }

  lemma AgedInTable(outbox: Outbox, cutoff: Time)
    ensures AgedIds(outbox, cutoff) <= outbox.Keys
  {
  }

  lemma AgedIdsAre(outbox: Outbox, cutoff: Time, id: nat)
    ensures id in AgedIds(outbox, cutoff) <==> Aged(outbox, cutoff, id)
  {
  }

  class OutboxRetention {
    const db: Database
    const window: nat
    const batch: nat
    var stopping: bool
    var deletedTotal: nat

    constructor (db: Database, window: nat, batch: nat)
      ensures this.db == db && this.window == window && this.batch == batch && !stopping && deletedTotal == 0
    {
      this.db, this.window, this.batch, stopping, deletedTotal := db, window, batch, false, 0;
    }

    /** DELETE ... : its status line reports how many rows went. */
    method DeleteBatch() returns (count: nat)
      requires SI.Inv(db.store) && batch >= 1
      modifies db
      ensures SI.Inv(db.store)
      ensures var ids := AgedRows(old(db.store).outbox, db.store.clock - window, batch);
              db.store == old(db.store).(outbox := DeleteRows(old(db.store).outbox, ids)) && count == |ids|
    {
      hide SI.Inv, AgedRows, DeleteRows, AgedIds;
      var before := |db.store.outbox|;
      BatchTakes(db.store.outbox, db.store.clock - window, batch);
      db.Run(Trim(window, batch));
      count := before - |db.store.outbox|;
    }

    /**
     * A sweep run alone, the clock standing still: it deletes exactly the aged published rows, whatever the batch
     * size, leaves every other row, published or not, and counts each deletion once.
     */
    method Sweep() returns (deleted: nat)
      requires SI.Inv(db.store) && batch >= 1
      modifies this`deletedTotal, db
      ensures SI.Inv(db.store)
      ensures stopping ==> deleted == 0 && db.store == old(db.store)
      ensures !stopping ==>
        && db.store == Swept(old(db.store), db.store.clock - window)
        && deleted == |AgedIds(old(db.store).outbox, db.store.clock - window)|
      ensures !stopping ==> forall id ::
        (id in db.store.outbox <==>
          && id in old(db.store).outbox
          && var stamp := old(db.store).outbox[id].stamp;
          (stamp.None? || db.store.clock - window <= stamp.value.at))
        && (id in db.store.outbox ==> db.store.outbox[id] == old(db.store).outbox[id])
      ensures deleted + |db.store.outbox| == |old(db.store).outbox|
      ensures deletedTotal == old(deletedTotal) + deleted
    {
      hide SI.Inv, AgedRows, DeleteRows, AgedIds;
      ghost var s, cutoff := db.store, db.store.clock - window;
      deleted := 0;
      while !stopping
        invariant SI.Inv(db.store) && db.store == s.(outbox := db.store.outbox)
        invariant stopping ==> deleted == 0 && db.store == s
        invariant deleted + |db.store.outbox| == |s.outbox| && deletedTotal == old(deletedTotal) + deleted
        invariant deleted + |AgedIds(db.store.outbox, cutoff)| == |AgedIds(s.outbox, cutoff)|
        invariant db.store.outbox - AgedIds(db.store.outbox, cutoff) == s.outbox - AgedIds(s.outbox, cutoff)
        decreases |AgedIds(db.store.outbox, cutoff)|
      {
        BatchTakes(db.store.outbox, cutoff, batch);
        var count := DeleteBatch();
        deleted := deleted + count;
        deletedTotal := deletedTotal + count;
        if count < batch {
          assert db.store.outbox - {} == db.store.outbox;
          break;
        }
      }
      forall id ensures id in AgedIds(s.outbox, cutoff) <==> Aged(s.outbox, cutoff, id) {
        AgedIdsAre(s.outbox, cutoff, id);
      }
    }
  }

  // ---- What is left of the stream ------------------------------------------------------------------

  /** Rows later in the stream were not published earlier. */
  ghost predicate PublishedInOrder(outbox: Outbox) {
    forall i, j :: i in outbox && j in outbox && outbox[i].stamp.Some? && outbox[j].stamp.Some?
      && outbox[i].stamp.value.pos < outbox[j].stamp.value.pos
      ==> outbox[i].stamp.value.at <= outbox[j].stamp.value.at
  }

  /** Whatever is aged has everything below it in the stream aged too. */
  ghost predicate AgedFromTheStart(outbox: Outbox, cutoff: Time) {
    forall i, j :: i in outbox && outbox[i].stamp.Some? && Aged(outbox, cutoff, j)
      && outbox[i].stamp.value.pos < outbox[j].stamp.value.pos
      ==> Aged(outbox, cutoff, i)
  }

  lemma EnvelopeOf(s: Store, id: nat) returns (e: Envelope)
    requires SI.TableOk(s) && id in s.outbox && s.outbox[id].stamp.Some?
    ensures e == Envelope(s.outbox[id].stamp.value.pos, s.outbox[id].event)
    ensures e in s.published && e.event.id == id && !Trimmed(s, e)
  {
    e := Envelope(s.outbox[id].stamp.value.pos, s.outbox[id].event);
  }

  lemma SweptTrims(s: Store, cutoff: Time, e: Envelope)
    requires SI.TableOk(s) && e in s.published
    ensures Trimmed(Swept(s, cutoff), e) <==> Trimmed(s, e) || Aged(s.outbox, cutoff, e.event.id)
    ensures !Trimmed(s, e) ==> InTable(s.outbox, e)
  {
  }

  /** A sweep of a table that retains a suffix keeps it so exactly when what it removes is the start of it. */
  lemma SweepKeepsSuffix(s: Store, cutoff: Time)
    requires SI.TableOk(s) && RetainsSuffix(s)
    ensures RetainsSuffix(Swept(s, cutoff)) <==> AgedFromTheStart(s.outbox, cutoff)
  {
    var s' := Swept(s, cutoff);
    if AgedFromTheStart(s.outbox, cutoff) {
      forall d, e | d in s'.published && e in s'.published && !Trimmed(s', d) && d.pos < e.pos ensures !Trimmed(s', e) {
        SweptTrims(s, cutoff, d);
        SweptTrims(s, cutoff, e);
      }
    }
    if RetainsSuffix(s') {
      forall i, j | i in s.outbox && s.outbox[i].stamp.Some? && Aged(s.outbox, cutoff, j)
                    && s.outbox[i].stamp.value.pos < s.outbox[j].stamp.value.pos
        ensures Aged(s.outbox, cutoff, i)
      {
        var d := EnvelopeOf(s, i);
        var e := EnvelopeOf(s, j);
        SweptTrims(s, cutoff, d);
        SweptTrims(s, cutoff, e);
      }
    }
  }

  /**
   * Completed sweeps keep a suffix of the stream, whenever they run, exactly when published_at never decreases
   * along it. published_at is the publisher's transaction start and does not promise that by itself.
   */
  lemma SweepsKeepSuffix(s: Store)
    requires SI.TableOk(s) && RetainsSuffix(s)
    ensures (forall cutoff: Time :: RetainsSuffix(Swept(s, cutoff))) <==> PublishedInOrder(s.outbox)
  {
    forall cutoff: Time ensures RetainsSuffix(Swept(s, cutoff)) <==> AgedFromTheStart(s.outbox, cutoff) {
      SweepKeepsSuffix(s, cutoff);
    }
    if forall cutoff: Time :: RetainsSuffix(Swept(s, cutoff)) {
      forall i, j | i in s.outbox && j in s.outbox && s.outbox[i].stamp.Some? && s.outbox[j].stamp.Some?
                    && s.outbox[i].stamp.value.pos < s.outbox[j].stamp.value.pos
        ensures s.outbox[i].stamp.value.at <= s.outbox[j].stamp.value.at
      {
        var cutoff := s.outbox[j].stamp.value.at + 1;
        assert RetainsSuffix(Swept(s, cutoff));
        assert Aged(s.outbox, cutoff, j);
        assert Aged(s.outbox, cutoff, i);
      }
    }
  }

  // ---- What one batch leaves of the stream ---------------------------------------------------------

  /** The database after one batch. */
  function Batched(s: Store, cutoff: Time, limit: nat): Store {
    s.(outbox := DeleteRows(s.outbox, AgedRows(s.outbox, cutoff, limit)))
  }

  /** Every published row below one of `ids` is itself one of them. */
  ghost predicate FromTheStart(outbox: Outbox, ids: seq<nat>) {
    forall i, j :: i in outbox && outbox[i].stamp.Some? && j in ids && PosOf(outbox, i) < PosOf(outbox, j) ==> i in ids
  }

  lemma BatchTrims(s: Store, ids: seq<nat>, e: Envelope)
    requires SI.TableOk(s) && e in s.published
    ensures Trimmed(s.(outbox := DeleteRows(s.outbox, ids)), e) <==> Trimmed(s, e) || e.event.id in ids
    ensures !Trimmed(s, e) ==> InTable(s.outbox, e) && PosOf(s.outbox, e.event.id) == e.pos
  {
  }

  lemma BatchIsPublished(s: Store, cutoff: Time, limit: nat)
    ensures forall id :: id in AgedRows(s.outbox, cutoff, limit) ==> id in s.outbox && s.outbox[id].stamp.Some?
  {
    AgedRowsIsAgedBatch(s.outbox, cutoff, limit);
  }

  /** A batch on a table that retains a suffix keeps it so exactly when the batch is the start of it. */
  lemma BatchKeepsSuffix(s: Store, cutoff: Time, limit: nat)
    requires SI.TableOk(s) && RetainsSuffix(s)
    ensures RetainsSuffix(Batched(s, cutoff, limit)) <==> FromTheStart(s.outbox, AgedRows(s.outbox, cutoff, limit))
  {
    hide AgedRows, SI.TableOk, DeleteRows;
    var s', ids := Batched(s, cutoff, limit), AgedRows(s.outbox, cutoff, limit);
    BatchIsPublished(s, cutoff, limit);
    if FromTheStart(s.outbox, ids) {
      forall d, e | d in s'.published && e in s'.published && !Trimmed(s', d) && d.pos < e.pos ensures !Trimmed(s', e) {
        BatchTrims(s, ids, d);
        BatchTrims(s, ids, e);
      }
    }
    if RetainsSuffix(s') {
      forall i, j | i in s.outbox && s.outbox[i].stamp.Some? && j in ids && PosOf(s.outbox, i) < PosOf(s.outbox, j)
        ensures i in ids
      {
        var d := EnvelopeOf(s, i);
        var e := EnvelopeOf(s, j);
        BatchTrims(s, ids, d);
        BatchTrims(s, ids, e);
      }
    }
  }

  /** Published rows later in the stream have larger ids. */
  ghost predicate IdsInOrder(outbox: Outbox) {
    forall i, j :: i in outbox && j in outbox && outbox[i].stamp.Some? && outbox[j].stamp.Some?
      && outbox[i].stamp.value.pos < outbox[j].stamp.value.pos
      ==> i < j
  }

  lemma OrderedBatchIsStart(outbox: Outbox, cutoff: Time, limit: nat)
    requires PublishedInOrder(outbox) && IdsInOrder(outbox)
    ensures FromTheStart(outbox, AgedRows(outbox, cutoff, limit))
  {
    hide AgedRows;
    var ids := AgedRows(outbox, cutoff, limit);
    AgedRowsIsAgedBatch(outbox, cutoff, limit);
    forall i, j | i in outbox && outbox[i].stamp.Some? && j in ids && PosOf(outbox, i) < PosOf(outbox, j)
      ensures i in ids
    {
      var k :| 0 <= k < |ids| && ids[k] == j;
      assert Aged(outbox, cutoff, j) && Aged(outbox, cutoff, i) && i < j <= ids[|ids| - 1];
    }
  }

  /** The batch that ends with row `j`. */
  lemma BatchEndingAt(outbox: Outbox, cutoff: Time, j: nat) returns (limit: nat)
    requires Aged(outbox, cutoff, j)
    ensures limit >= 1 && j in AgedRows(outbox, cutoff, limit)
    ensures forall i :: i in AgedRows(outbox, cutoff, limit) ==> i <= j
  {
    var all := OrderBy(AgedIds(outbox, cutoff), ById);
    assert j in all;
    var k :| 0 <= k < |all| && all[k] == j;
    limit := k + 1;
    assert AgedRows(outbox, cutoff, limit) == all[..limit];
    assert all[..limit][k] == j;
    forall i | i in all[..limit] ensures i <= j {
      var m :| 0 <= m < limit && all[m] == i;
      assert m < k ==> Before(ById, all[m], all[k]);
    }
  }

  lemma SomeBatchBreaks(s: Store, i: nat, j: nat) returns (cutoff: Time, limit: nat)
    requires SI.TableOk(s) && RetainsSuffix(s)
    requires i in s.outbox && j in s.outbox && s.outbox[i].stamp.Some? && s.outbox[j].stamp.Some?
    requires s.outbox[i].stamp.value.pos < s.outbox[j].stamp.value.pos
    requires s.outbox[j].stamp.value.at < s.outbox[i].stamp.value.at || j < i
    ensures limit >= 1 && !RetainsSuffix(Batched(s, cutoff, limit))
  {
    hide AgedRows, SI.TableOk;
    cutoff := s.outbox[j].stamp.value.at + 1;
    limit := BatchEndingAt(s.outbox, cutoff, j);
    BatchKeepsSuffix(s, cutoff, limit);
    AgedRowsIsAgedBatch(s.outbox, cutoff, limit);
    assert i !in AgedRows(s.outbox, cutoff, limit);
  }

  /**
   * Deletion batches, of any size and at any cutoff, keep a suffix of the stream exactly when neither published_at
   * nor id ever decreases along it. Both are columns of the table; the service promises neither.
   */
  lemma BatchesKeepSuffix(s: Store)
    requires SI.TableOk(s) && RetainsSuffix(s)
    ensures (forall cutoff: Time, limit: nat :: limit >= 1 ==> RetainsSuffix(Batched(s, cutoff, limit)))
        <==> PublishedInOrder(s.outbox) && IdsInOrder(s.outbox)
  {
    hide AgedRows, SI.TableOk, RetainsSuffix, Batched;
    if PublishedInOrder(s.outbox) && IdsInOrder(s.outbox) {
      forall cutoff: Time, limit: nat | limit >= 1 ensures RetainsSuffix(Batched(s, cutoff, limit)) {
        OrderedBatchIsStart(s.outbox, cutoff, limit);
        BatchKeepsSuffix(s, cutoff, limit);
      }
    }
    if forall cutoff: Time, limit: nat :: limit >= 1 ==> RetainsSuffix(Batched(s, cutoff, limit)) {
      forall i, j | i in s.outbox && j in s.outbox && s.outbox[i].stamp.Some? && s.outbox[j].stamp.Some?
                    && s.outbox[i].stamp.value.pos < s.outbox[j].stamp.value.pos
        ensures s.outbox[i].stamp.value.at <= s.outbox[j].stamp.value.at && i < j
      {
        DistinctRows(s, i, j);
        if s.outbox[j].stamp.value.at < s.outbox[i].stamp.value.at || j < i {
          var cutoff, limit := SomeBatchBreaks(s, i, j);
        }
      }
    }
  }

  lemma DistinctRows(s: Store, i: nat, j: nat)
    requires i in s.outbox && j in s.outbox && s.outbox[i].stamp.Some? && s.outbox[j].stamp.Some?
    requires s.outbox[i].stamp.value.pos < s.outbox[j].stamp.value.pos
    ensures i != j
  {
  }
}
