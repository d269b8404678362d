/**
  How each clause of the channel's invariant survives a task's move: what the move must respect,
  and what follows.
*/
module ChannelMoves {
  import opened Basics
  import opened SimpleQueues
  import opened Waiters
  import opened ChannelModel
  import opened ChannelInvariant

  lemma ClaimsMove(q: SimpleQueue, q': SimpleQueue, quiet: set<nat>, quiet': set<nat>, told: set<nat>, told': set<nat>,
                   pcs: seq<Pc>, a: Tid, pc: Pc)
    requires ClaimsOk(q, quiet, told, pcs) && a < |pcs| && q'.log == q.log
    requires quiet <= quiet' && told <= told' && forall k :: k in quiet' || k in told' ==> k < |q.log|
    requires forall k :: k in q.pending ==> k in q'.pending || (ClaimOf(pcs[a]) == Some(k) && !IsWriting(pc))
    requires
      || ClaimOf(pc) == ClaimOf(pcs[a])
      || (ClaimOf(pc).None? && (ClaimOf(pcs[a]).Some? ==> ClaimOf(pcs[a]).value in quiet' + told'))
    requires IsWriting(pc) ==> IsWriting(pcs[a])
    requires pc.Sending? && pc.at.Write? && !pc.at.wake ==> pc.at.k in quiet'
    ensures ClaimsOk(q', quiet', told', pcs[a := pc])
  {
  }

  lemma ListMove(side: Side, list: seq<Entry>, list': seq<Entry>, nextId: Id, nextId': Id, pcs: seq<Pc>, a: Tid, pc: Pc)
    requires ListOk(side, list, nextId, pcs) && a < |pcs| && nextId <= nextId'
    requires DistinctIds(list') && forall i :: 0 <= i < |list'| ==> list'[i] in list
    requires
      || RegOf(side, pc) == RegOf(side, pcs[a])
      || (RegOf(side, pc).None? && (RegOf(side, pcs[a]).Some? ==> RegOf(side, pcs[a]).value !in Ids(list')))
    ensures ListOk(side, list', nextId', pcs[a := pc])
  {
    hide RegOf, DistinctIds;
  }

  lemma ListRegister(side: Side, list: seq<Entry>, nextId: Id, pcs: seq<Pc>, a: Tid, pc: Pc)
    requires ListOk(side, list, nextId, pcs) && a < |pcs|
    requires RegOf(side, pcs[a]).None? && RegOf(side, pc) == Some(nextId)
    ensures ListOk(side, list + [Entry(nextId, a)], nextId + 1, pcs[a := pc])
  {
    hide RegOf;
  }

  lemma PromiseMove(side: Side, list: seq<Entry>, list': seq<Entry>, nextId: Id, woken: set<Tid>, woken': set<Tid>,
                    pcs: seq<Pc>, a: Tid, pc: Pc)
    requires PromiseOk(side, list, woken, pcs) && ListOk(side, list, nextId, pcs) && a < |pcs|
    requires forall w :: w in woken && w != a ==> w in woken'
    requires pcs[a].Waking? ==> forall w :: w in pcs[a].ws ==> w in woken' || (pc.Waking? && w in pc.ws)
    requires forall i :: 0 <= i < |list| ==>
      list[i].id in Ids(list') || list[i].who == a || (pc.Waking? && list[i].who in pc.ws)
    requires Expects(side, pc).Some? ==>
      || Expects(side, pc).value in Ids(list') || a in woken'
      || (Expects(side, pc) == Expects(side, pcs[a]) && (a in woken ==> a in woken')
          && (Expects(side, pc).value in Ids(list) ==> Expects(side, pc).value in Ids(list')))
    ensures PromiseOk(side, list', woken', pcs[a := pc])
  {
    hide RegOf, Expects, DistinctIds;
    var pcs' := pcs[a := pc];
    forall b | 0 <= b < |pcs'| && Expects(side, pcs'[b]).Some? && Expects(side, pcs'[b]).value !in Ids(list')
      ensures b in woken' || Promised(pcs', b)
    {
      var id := Expects(side, pcs'[b]).value;
      ExpectsIsReg(side, pcs[b]);
      if b in woken' {
      } else if id in Ids(list) && b != a {
        var i :| 0 <= i < |list| && list[i].id == id;
        assert list[i].who == b;
        assert pcs'[a].Waking? && b in pcs'[a].ws;
      } else {
        PromiseStays(pcs, a, pc, woken', b);
      }
    }
  }

  lemma ExpectsIsReg(side: Side, pc: Pc)
    ensures Expects(side, pc).Some? ==> RegOf(side, pc) == Expects(side, pc)
  {
  }

  lemma PromiseStays(pcs: seq<Pc>, a: Tid, pc: Pc, woken': set<Tid>, b: Tid)
    requires a < |pcs| && Promised(pcs, b)
    requires pcs[a].Waking? ==> forall w :: w in pcs[a].ws ==> w in woken' || (pc.Waking? && w in pc.ws)
    ensures b in woken' || Promised(pcs[a := pc], b)
  {
    var d :| 0 <= d < |pcs| && pcs[d].Waking? && b in pcs[d].ws;
    var pcs' := pcs[a := pc];
    assert b in woken' || (pcs'[d].Waking? && b in pcs'[d].ws);
  }

  lemma SoloMove(c: Channel, pcs: seq<Pc>, a: Tid, pc: Pc)
    requires SoloOk(c, pcs) && a < |pcs|
    requires IsReceiver(pc) ==> IsReceiver(pcs[a]) || MayReceive(c, a)
    requires pc.Receiving? && pc.recv.RecvBatch? ==> c.solo == Some(a) || (pcs[a].Receiving? && pcs[a].recv.RecvBatch?)
    ensures SoloOk(c, pcs[a := pc])
  {
    hide IsReceiver;
  }

  lemma HearsMove(c: Channel, q: SimpleQueue, q': SimpleQueue, receivers: seq<Entry>, receivers': seq<Entry>,
                  quiet: set<nat>, quiet': set<nat>, told: set<nat>, told': set<nat>, pcs: seq<Pc>, a: Tid, pc: Pc)
    requires HearsOk(c, q, receivers, quiet, told, pcs) && a < |pcs| && |q.log| <= |q'.log|
    requires Ids(receivers') <= Ids(receivers) && forall k :: k in quiet' || k in told' ==> k < |q.log|
    requires Ids(receivers') == {} || (quiet' <= quiet && (c.solo.Some? ==> told' <= told))
    requires EarOf(pc).Some? ==> EarOf(pc) == EarOf(pcs[a]) || EarOf(pc).value.seen == |q'.log|
    ensures HearsOk(c, q', receivers', quiet', told', pcs[a := pc])
  {
    hide EarOf;
  }

  lemma HearsRegister(c: Channel, q: SimpleQueue, receivers: seq<Entry>, nextId: Id, quiet: set<nat>, told: set<nat>,
                      pcs: seq<Pc>, a: Tid, pc: Pc)
    requires HearsOk(c, q, receivers, quiet, told, pcs) && ListOk(Receivers, receivers, nextId, pcs)
    requires a < |pcs| && EarOf(pc).None?
    ensures HearsOk(c, q, receivers + [Entry(nextId, a)], quiet, told, pcs[a := pc])
  {
    hide EarOf, RegOf, DistinctIds;
    forall b | 0 <= b < |pcs| && EarOf(pcs[b]).Some? ensures EarOf(pcs[b]).value.id < nextId {
      EarIsReg(pcs[b]);
    }
  }

  lemma EarIsReg(pc: Pc)
    ensures EarOf(pc).Some? ==> RegOf(Receivers, pc) == Some(EarOf(pc).value.id)
  {
  }

  lemma AsleepMove(head: nat, head': nat, receivers: seq<Entry>, receivers': seq<Entry>,
                   woken: set<Tid>, woken': set<Tid>,
                   drained: bool, drained': bool, pcs: seq<Pc>, a: Tid, pc: Pc)
    requires AsleepOk(head, receivers, woken, drained, pcs) && a < |pcs| && head <= head'
    requires Ids(receivers') <= Ids(receivers) && forall w :: w in woken && w != a ==> w in woken'
    requires drained' ==> drained || Ids(receivers') == {}
    requires pc.RecvParked? && a !in woken' ==> pc.seen <= head' && (pc.id in Ids(receivers') ==> !drained')
    requires pc.Receiving? && pc.take.Below? && pc.recv.RecvAgain? ==> (pc.recv.id in Ids(receivers') ==> !drained')
    ensures AsleepOk(head', receivers', woken', drained', pcs[a := pc])
  {
  }

  lemma AsleepRegister(head: nat, receivers: seq<Entry>, nextId: Id, woken: set<Tid>, drained: bool, pcs: seq<Pc>,
                       a: Tid, pc: Pc)
    requires AsleepOk(head, receivers, woken, drained, pcs) && ListOk(Receivers, receivers, nextId, pcs)
    requires a < |pcs| && EarOf(pc).None?
    ensures AsleepOk(head, receivers + [Entry(nextId, a)], woken, drained, pcs[a := pc])
  {
    hide DistinctIds;
    assert forall x :: x in Ids(receivers + [Entry(nextId, a)]) ==> x in Ids(receivers) || x == nextId;
    forall b | 0 <= b < |pcs| && EarOf(pcs[b]).Some? ensures EarOf(pcs[b]).value.id < nextId {
      EarIsReg(pcs[b]);
    }
  }

  lemma ClosedMove(q: SimpleQueue, q': SimpleQueue, closed: bool, closer: Option<Tid>, closedAt: nat, drained: bool,
                   dismissed: bool, pcs: seq<Pc>, a: Tid, pc: Pc)
    requires ClosedOk(q, closed, closer, closedAt, drained, dismissed, pcs) && a < |pcs|
    requires q.head <= q'.head && |q.log| <= |q'.log|
    requires Stage(pc) == Stage(pcs[a])
    requires KnowsClosed(pc) ==> closed
    requires pc.Receiving? && pc.take.VerdictTail? ==> pc.take.h <= q'.head
    requires pc.Verdict? ==> closedAt <= pc.read <= q'.head
    ensures ClosedOk(q', closed, closer, closedAt, drained, dismissed, pcs[a := pc])
  {
    hide Stage, KnowsClosed;
  }

  lemma OpenMove(senders: seq<Entry>, senders': seq<Entry>, dismissed: bool, dismissed': bool, pcs: seq<Pc>,
          a: Tid, pc: Pc)
    requires OpenOk(senders, dismissed, pcs) && a < |pcs|
    requires Ids(senders') <= Ids(senders) && (dismissed' ==> dismissed || Ids(senders') == {})
    requires SleepyOf(pc).Some? ==> SleepyOf(pc) == SleepyOf(pcs[a]) || !dismissed'
    ensures OpenOk(senders', dismissed', pcs[a := pc])
  {
    hide SleepyOf;
  }

  lemma OpenRegister(senders: seq<Entry>, nextId: Id, dismissed: bool, pcs: seq<Pc>, a: Tid, pc: Pc)
    requires OpenOk(senders, dismissed, pcs) && ListOk(Senders, senders, nextId, pcs)
    requires a < |pcs| && SleepyOf(pc).None?
    ensures OpenOk(senders + [Entry(nextId, a)], dismissed, pcs[a := pc])
  {
    hide DistinctIds, RegOf, SleepyOf;
    assert forall x :: x in Ids(senders + [Entry(nextId, a)]) ==> x in Ids(senders) || x == nextId;
    forall b | 0 <= b < |pcs| && SleepyOf(pcs[b]).Some? ensures SleepyOf(pcs[b]).value < nextId {
      SleepyIsReg(pcs[b]);
    }
  }

  lemma SleepyIsReg(pc: Pc)
    ensures SleepyOf(pc).Some? ==> RegOf(Senders, pc) == SleepyOf(pc)
  {
  }

  // ---- Counting ---------------------------------------------------------------------------------

  lemma {:induction false} SumUpdate(side: Side, pcs: seq<Pc>, a: Tid, pc: Pc, ids: set<Id>)
    requires a < |pcs|
    ensures Sum(side, pcs[a := pc], ids) + Weight(side, pcs[a], ids) == Sum(side, pcs, ids) + Weight(side, pc, ids)
    decreases |pcs|
  {
    hide Weight;
    var n := |pcs| - 1;
    if a < n {
      SumUpdate(side, pcs[..n], a, pc, ids);
      assert pcs[a := pc][..n] == pcs[..n][a := pc];
    } else {
      assert pcs[a := pc][..n] == pcs[..n];
    }
  }

  lemma {:induction false} DuesUpdate(pcs: seq<Pc>, a: Tid, pc: Pc)
    requires a < |pcs|
    ensures Dues(pcs[a := pc]) + Due(pcs[a]) == Dues(pcs) + Due(pc)
    decreases |pcs|
  {
    hide Due;
    var n := |pcs| - 1;
    if a < n {
      DuesUpdate(pcs[..n], a, pc);
      assert pcs[a := pc][..n] == pcs[..n][a := pc];
    } else {
      assert pcs[a := pc][..n] == pcs[..n];
    }
  }

  /** A registration nobody holds does not count. */
  lemma {:induction false} SumSame(side: Side, pcs: seq<Pc>, ids: set<Id>, ids': set<Id>)
    requires forall a :: 0 <= a < |pcs| && RegOf(side, pcs[a]).Some? ==>
      (RegOf(side, pcs[a]).value in ids <==> RegOf(side, pcs[a]).value in ids')
    ensures Sum(side, pcs, ids) == Sum(side, pcs, ids')
    decreases |pcs|
  {
    hide RegOf;
    if |pcs| > 0 {
      SumSame(side, pcs[..|pcs| - 1], ids, ids');
    }
  }

  /** The entry of one future leaves the list: it now counts for one. */
  lemma {:induction false} SumDrop(side: Side, pcs: seq<Pc>, ids: set<Id>, id: Id, who: Tid)
    requires id in ids && who < |pcs| && RegOf(side, pcs[who]) == Some(id)
    requires forall b :: 0 <= b < |pcs| && b != who ==> RegOf(side, pcs[b]) != Some(id)
    ensures Sum(side, pcs, ids - {id}) == Sum(side, pcs, ids) + 1
    decreases |pcs|
  {
    hide RegOf;
    var n := |pcs| - 1;
    if who < n {
      SumDrop(side, pcs[..n], ids, id, who);
    } else {
      SumSame(side, pcs[..n], ids, ids - {id});
    }
  }

  lemma OneHolder(side: Side, list: seq<Entry>, nextId: Id, pcs: seq<Pc>, i: nat)
    requires ListOk(side, list, nextId, pcs) && i < |list|
    ensures list[i].who < |pcs| && RegOf(side, pcs[list[i].who]) == Some(list[i].id)
    ensures forall b :: 0 <= b < |pcs| && b != list[i].who ==> RegOf(side, pcs[b]) != Some(list[i].id)
  {
    hide RegOf, DistinctIds;
  }

  /** Each notification taken off the list moves to the future it wakes. */
  lemma {:induction false} SumPop(side: Side, list: seq<Entry>, nextId: Id, pcs: seq<Pc>, n: nat)
    requires ListOk(side, list, nextId, pcs)
    ensures Sum(side, pcs, Ids(Rest(list, n))) == Sum(side, pcs, Ids(list)) + |First(list, n)|
    decreases n
  {
    hide RegOf, ListOk;
    if n == 0 || |list| == 0 {
      assert Rest(list, n) == list;
    } else {
      OneHolder(side, list, nextId, pcs, 0);
      assert list[0].id in Ids(list);
      RestListOk(side, list, nextId, pcs);
      SumDrop(side, pcs, Ids(list), list[0].id, list[0].who);
      SumPop(side, Rest(list, 1), nextId, pcs, n - 1);
      assert Rest(Rest(list, 1), n - 1) == Rest(list, n);
    }
  }

  lemma RestListOk(side: Side, list: seq<Entry>, nextId: Id, pcs: seq<Pc>)
    requires ListOk(side, list, nextId, pcs) && |list| > 0
    ensures ListOk(side, Rest(list, 1), nextId, pcs)
    ensures Ids(Rest(list, 1)) == Ids(list) - {list[0].id}
  {
    hide RegOf;
    RestIds(list, 1);
    assert First(list, 1) == [list[0]];
    assert First(list, 1)[0].id in Ids(First(list, 1));
  }

  // ---- Tokens -----------------------------------------------------------------------------------

  /** A move that leaves the list alone, and counts for as much as before; or finds the queue full,
      or leaves nobody beyond the notifications due. */
  lemma TokensMove(c: Channel, q: SimpleQueue, q': SimpleQueue, closed: bool, closed': bool, senders: seq<Entry>,
                   pcs: seq<Pc>, a: Tid, pc: Pc)
    requires TokensOk(c, q, closed, senders, pcs) && a < |pcs| && (closed ==> closed')
    requires
      || closed' || c.capacity.None? || IsFull(c, q') || |senders| <= Due(pc)
      || (Due(pc) >= Due(pcs[a]) && (pc.SendParked? ==> pcs[a].SendParked?)
          && |q'.log| - q'.head + Weight(Senders, pc, Ids(senders))
             >= |q.log| - q.head + Weight(Senders, pcs[a], Ids(senders)))
    ensures TokensOk(c, q', closed', senders, pcs[a := pc])
  {
    hide Weight, Due, Sum, Dues;
    var pcs' := pcs[a := pc];
    SumUpdate(Senders, pcs, a, pc, Ids(senders));
    DuesUpdate(pcs, a, pc);
    DueAtMost(pcs', a);
    if Stranded(senders, pcs') && !(|senders| <= Due(pc)) && (pc.SendParked? ==> pcs[a].SendParked?)
      && Due(pc) >= Due(pcs[a]) {
      var i :| Dues(pcs') <= i < |senders| && senders[i].who < |pcs'| && pcs'[senders[i].who].SendParked?;
      assert pcs[senders[i].who].SendParked?;
    }
  }

  lemma {:induction false} DueAtMost(pcs: seq<Pc>, a: Tid)
    requires a < |pcs|
    ensures Due(pcs[a]) <= Dues(pcs)
    decreases |pcs|
  {
    hide Due;
    if a < |pcs| - 1 {
      DueAtMost(pcs[..|pcs| - 1], a);
    }
  }

  /** A task's own registration leaves the list. */
  lemma TokensWithout(c: Channel, q: SimpleQueue, closed: bool, senders: seq<Entry>, nextId: Id, pcs: seq<Pc>,
                      a: Tid, id: Id, pc: Pc)
    requires TokensOk(c, q, closed, senders, pcs) && ListOk(Senders, senders, nextId, pcs) && a < |pcs|
    requires RegOf(Senders, pcs[a]) == Some(id) && Due(pcs[a]) == 0 && !pc.SendParked?
    requires id in Ids(senders) || Weight(Senders, pc, Ids(Without(senders, id))) >= 1
    ensures TokensOk(c, q, closed, Without(senders, id), pcs[a := pc])
  {
    hide Sum, Dues, DistinctIds, Stranded, ListOk, RegOf;
    WithoutSum(Senders, senders, nextId, pcs, a, id);
    SumUpdate(Senders, pcs, a, pc, Ids(Without(senders, id)));
    StrandedWithout(senders, pcs, a, id, pc);
  }

  lemma StrandedWithout(senders: seq<Entry>, pcs: seq<Pc>, a: Tid, id: Id, pc: Pc)
    requires a < |pcs| && Due(pcs[a]) == 0 && !pc.SendParked?
    ensures Stranded(Without(senders, id), pcs[a := pc]) ==> Stranded(senders, pcs)
  {
    hide Dues, Due;
    var senders', pcs' := Without(senders, id), pcs[a := pc];
    DuesUpdate(pcs, a, pc);
    if Stranded(senders', pcs') {
      var i :| Dues(pcs') <= i < |senders'| && senders'[i].who < |pcs'| && pcs'[senders'[i].who].SendParked?;
      var j := if i < IndexOf(senders, id) then i else i + 1;
      if id in Ids(senders) {
        assert senders[j] == senders'[i];
      } else {
        assert senders[i] == senders'[i];
      }
    }
  }

  lemma WithoutSum(side: Side, list: seq<Entry>, nextId: Id, pcs: seq<Pc>, a: Tid, id: Id)
    requires ListOk(side, list, nextId, pcs) && a < |pcs| && RegOf(side, pcs[a]) == Some(id)
    ensures Sum(side, pcs, Ids(Without(list, id))) ==
      Sum(side, pcs, Ids(list)) + if id in Ids(list) then 1 else 0
    ensures id !in Ids(Without(list, id))
  {
    hide RegOf, Sum;
    WithoutIds(list, id);
    if id in Ids(list) {
      SumDrop(side, pcs, Ids(list), id, a);
    } else {
      assert Ids(list) - {id} == Ids(list);
    }
  }

  /** Notifications are made: those due, or one passed on. */
  lemma TokensPop(c: Channel, q: SimpleQueue, closed: bool, senders: seq<Entry>, nextId: Id, pcs: seq<Pc>,
                  a: Tid, n: nat, pc: Pc)
    requires TokensOk(c, q, closed, senders, pcs) && ListOk(Senders, senders, nextId, pcs) && a < |pcs|
    requires RegOf(Senders, pcs[a]).None? && Weight(Senders, pcs[a], {}) <= n && Due(pcs[a]) <= n && !pc.SendParked?
    ensures TokensOk(c, q, closed, Rest(senders, n), pcs[a := pc])
  {
    hide RegOf, Sum, Dues, DistinctIds, Due;
    var senders', pcs' := Rest(senders, n), pcs[a := pc];
    SumPop(Senders, senders, nextId, pcs, n);
    SumUpdate(Senders, pcs, a, pc, Ids(senders'));
    DuesUpdate(pcs, a, pc);
    if Stranded(senders', pcs') {
      var i :| Dues(pcs') <= i < |senders'| && senders'[i].who < |pcs'| && pcs'[senders'[i].who].SendParked?;
      assert senders[i + n] == senders'[i];
      assert Stranded(senders, pcs);
    }
  }

  lemma TokensRegister(c: Channel, q: SimpleQueue, closed: bool, senders: seq<Entry>, nextId: Id, pcs: seq<Pc>,
                       a: Tid, pc: Pc)
    requires TokensOk(c, q, closed, senders, pcs) && ListOk(Senders, senders, nextId, pcs) && a < |pcs|
    requires Weight(Senders, pcs[a], {}) == 0 && Due(pcs[a]) == 0 && RegOf(Senders, pcs[a]).None? && !pc.SendParked?
    ensures TokensOk(c, q, closed, senders + [Entry(nextId, a)], pcs[a := pc])
  {
    hide Sum, Dues, DistinctIds;
    var senders', pcs' := senders + [Entry(nextId, a)], pcs[a := pc];
    assert forall x :: x in Ids(senders) ==> x in Ids(senders') by {
      forall x | x in Ids(senders) ensures x in Ids(senders') {
        var i :| 0 <= i < |senders| && senders[i].id == x;
        assert senders'[i].id == x;
      }
    }
    SumSame(Senders, pcs, Ids(senders), Ids(senders'));
    SumUpdate(Senders, pcs, a, pc, Ids(senders'));
    DuesUpdate(pcs, a, pc);
    if Stranded(senders', pcs') {
      var i :| Dues(pcs') <= i < |senders'| && senders'[i].who < |pcs'| && pcs'[senders'[i].who].SendParked?;
      assert i < |senders| && senders[i] == senders'[i];
      assert Stranded(senders, pcs);
    }
  }
}
