/** What the hazard scan decides, and what reclaiming achieves, in every run: a record goes
    back on the list only if a slot was read that names its node, a node that no slot names
    is released, and no slot names a node outside the loop of `pop`. */
module HazardReclaim {
  import opened Options
  import opened AtomicStack
  import opened HazardStack

  /** Some slot of the table names the node. */
  ghost predicate Named(s: State, p: Addr) {
    exists m: nat :: m < |s.slots| && s.slots[m].ptr == Some(p)
  }

  lemma StepOf(states: seq<State>, who: seq<Tid>, how: seq<Choice>, k: nat)
    requires Run(states, who, how) && k < |who|
    ensures |states| == |who| + 1 && |how| == |who| && Inv(states[k]) && Inv(states[k + 1])
    ensures !states[k].fault && !states[k + 1].fault
    ensures Enabled(states[k], who[k], how[k]) && states[k + 1] == Next(states[k], who[k], how[k])
  {
    hide Next, Enabled, Init, SlotsOk, LinkedOk, ListOk, NodeOk, RecOk, ChainOk, ThreadOk, ScanOk;
    RunKeeps(states, who, how, k);
    RunKeeps(states, who, how, k + 1);
  }

  /** Thread `u` stands where it stood. */
  ghost predicate Stands(s: State, s': State, u: Tid) {
    (u in s'.threads <==> u in s.threads) && (u in s.threads ==> s'.threads[u] == s.threads[u])
  }

  ghost predicate SameRecords(s: State, s': State) {
    s'.recs == s.recs && s'.chains == s.chains && s'.list == s.list && s'.listed == s.listed
  }

  ghost predicate SameTable(s: State, s': State) {
    s'.slots == s.slots && s'.mine == s.mine
  }

  /** A step moves no thread but its own. */
  lemma OthersStand(s: State, t: Tid, c: Choice, u: Tid)
    requires Enabled(s, t, c) && u != t
    ensures Stands(s, Next(s, t, c), u)
  {
    hide Next, Stands;
    if Outside(s, t, c) { OutsideStands(s, t, c, u); }
    else if Recording(s.threads[t]) { RecordStands(s, t, c, u); }
    else if Reclaiming(s.threads[t]) { DrainStands(s, t, c, u); }
    else if Writing(s.threads[t]) { WriteStands(s, t, c, u); }
    else if Looping(s.threads[t]) { LoopStands(s, t, c, u); }
    else if Owning(s.threads[t]) { OwnStands(s, t, c, u); }
    else if Pushing(s.threads[t]) { PushStands(s, t, c, u); }
    else { TableStands(s, t, c, u); }
  }

  /** The step begins or ends an operation. */
  ghost predicate Outside(s: State, t: Tid, c: Choice)
    requires Enabled(s, t, c)
  {
    !c.Continue? || s.threads[t].Returning? || s.threads[t].NoSlot?
  }

  predicate Looping(th: Thread) {
    th.PopStart? || th.Revalidate? || th.Validated? || th.NextRead?
  }

  predicate Pushing(th: Thread) {
    th.PushStart? || th.PushLoad? || th.PushCas?
  }

  /** About to take a slot, or to give it back. */
  predicate Holding(th: Thread) {
    th.Claim? || th.ExitRelease?
  }

  predicate Owning(th: Thread) {
    th.Swap? || th.ScanOwn? || th.FreeOwn?
  }

  predicate Writing(th: Thread) {
    th.Publish? || th.ClearWon? || th.ClearEmpty? || th.ExitClear?
  }

  predicate Recording(th: Thread) {
    th.Retire? || th.AddLink? || th.AddCas?
  }

  lemma OutsideStands(s: State, t: Tid, c: Choice, u: Tid)
    requires Enabled(s, t, c) && Outside(s, t, c) && u != t
    ensures Stands(s, Next(s, t, c), u)
  {
  }

  lemma RecordStands(s: State, t: Tid, c: Choice, u: Tid)
    requires Enabled(s, t, c) && !Outside(s, t, c) && Recording(s.threads[t]) && u != t
    ensures Stands(s, Next(s, t, c), u)
  {
  }

  lemma DrainStands(s: State, t: Tid, c: Choice, u: Tid)
    requires Enabled(s, t, c) && !Outside(s, t, c) && Reclaiming(s.threads[t]) && !Recording(s.threads[t]) && u != t
    ensures Stands(s, Next(s, t, c), u)
  {
  }

  lemma WriteStands(s: State, t: Tid, c: Choice, u: Tid)
    requires Enabled(s, t, c) && !Outside(s, t, c) && Writing(s.threads[t]) && u != t
    ensures Stands(s, Next(s, t, c), u)
  {
  }

  lemma LoopStands(s: State, t: Tid, c: Choice, u: Tid)
    requires Enabled(s, t, c) && !Outside(s, t, c) && Looping(s.threads[t]) && u != t
    ensures Stands(s, Next(s, t, c), u)
  {
  }

  lemma OwnStands(s: State, t: Tid, c: Choice, u: Tid)
    requires Enabled(s, t, c) && !Outside(s, t, c) && Owning(s.threads[t]) && u != t
    ensures Stands(s, Next(s, t, c), u)
  {
  }

  lemma PushStands(s: State, t: Tid, c: Choice, u: Tid)
    requires Enabled(s, t, c) && !Outside(s, t, c) && Pushing(s.threads[t]) && u != t
    ensures Stands(s, Next(s, t, c), u)
  {
  }

  lemma TableStands(s: State, t: Tid, c: Choice, u: Tid)
    requires Enabled(s, t, c) && !Outside(s, t, c) && Holding(s.threads[t]) && u != t
    ensures Stands(s, Next(s, t, c), u)
  {
  }

  lemma OutsideLeaves(s: State, t: Tid, c: Choice)
    requires Enabled(s, t, c) && Outside(s, t, c)
    ensures SameRecords(s, Next(s, t, c)) && SameTable(s, Next(s, t, c))
  {
  }

  lemma LoopLeaves(s: State, t: Tid, c: Choice)
    requires Enabled(s, t, c) && !Outside(s, t, c) && Looping(s.threads[t])
    ensures SameRecords(s, Next(s, t, c)) && SameTable(s, Next(s, t, c))
  {
  }

  lemma OwnLeaves(s: State, t: Tid, c: Choice)
    requires Enabled(s, t, c) && !Outside(s, t, c) && Owning(s.threads[t])
    ensures SameRecords(s, Next(s, t, c)) && SameTable(s, Next(s, t, c))
  {
  }

  lemma PushLeaves(s: State, t: Tid, c: Choice)
    requires Enabled(s, t, c) && !Outside(s, t, c) && Pushing(s.threads[t])
    ensures SameRecords(s, Next(s, t, c)) && SameTable(s, Next(s, t, c))
  {
  }

  lemma WriteLeaves(s: State, t: Tid, c: Choice)
    requires Enabled(s, t, c) && !Outside(s, t, c) && Writing(s.threads[t])
    ensures SameRecords(s, Next(s, t, c))
  {
  }

  lemma TableLeaves(s: State, t: Tid, c: Choice)
    requires Enabled(s, t, c) && !Outside(s, t, c) && Holding(s.threads[t])
    ensures SameRecords(s, Next(s, t, c))
  {
  }

  lemma RecordLeaves(s: State, t: Tid, c: Choice)
    requires Enabled(s, t, c) && !Outside(s, t, c) && Recording(s.threads[t])
    ensures SameTable(s, Next(s, t, c))
  {
  }

  lemma DrainLeaves(s: State, t: Tid, c: Choice)
    requires Enabled(s, t, c) && !Outside(s, t, c) && Reclaiming(s.threads[t]) && !Recording(s.threads[t])
    ensures SameTable(s, Next(s, t, c))
  {
  }

  // ---------------------------------------------------------------------------------------
  // The verdict of a scan
  // ---------------------------------------------------------------------------------------

  /** What a thread is scanning the table for, and the slot it reads next. */
  ghost predicate Scanning(th: Thread, p: Addr, i: nat) {
    (th.ScanRec? && th.p == p && th.i == i) || (th.ScanOwn? && th.p == p && th.i == i)
  }

  /** A scan goes on to put the node back, or to retire it, exactly when it reads a slot that
      names it, and to release it exactly when it has read every slot. */
  lemma ScanVerdict(states: seq<State>, who: seq<Tid>, how: seq<Choice>, k: nat, p: Addr, i: nat)
    requires Run(states, who, how) && k < |who|
    requires who[k] in states[k].threads && Scanning(states[k].threads[who[k]], p, i)
    ensures who[k] in states[k + 1].threads
    ensures
      var s, th, th' := states[k], states[k].threads[who[k]], states[k + 1].threads[who[k]];
      && ((th'.AddLink? || th'.Retire?) <==> i < |s.slots| && s.slots[i].ptr == Some(p))
      && ((th'.FreeData? || th'.FreeOwn?) <==> i >= |s.slots|)
      && (th'.AddLink? ==> th.ScanRec? && th'.r == th.r && th'.k == Resume(th.cur, th.chain) && th'.res == th.res)
      && (th'.Retire? ==> th.ScanOwn? && th'.p == p && th'.res == th.res)
      && (!th'.AddLink? && !th'.Retire? && !th'.FreeData? && !th'.FreeOwn? ==> Scanning(th', p, i + 1))
  {
    hide Inv;
    StepOf(states, who, how, k);
  }

  /** When the compare-exchanges and the second look at head_ go through. */
  ghost predicate Exchanges(s: State, s': State, t: Tid, spurious: bool) {
    t in s.threads && t in s'.threads && var th, th' := s.threads[t], s'.threads[t];
    && (th.PushCas? ==> th.n in s.heap && (th'.Returning? <==> !spurious && s.head == s.heap[th.n].next))
    && (th.NextRead? ==> (th'.ClearWon? <==> s.head == Some(th.p)))
    && (th.Revalidate? ==> (th' == ClearEmpty <==> s.head == th.seen == None))
    && (th.Revalidate? ==> (th'.Validated? <==> s.head == th.seen && s.head.Some?))
    && (th.AddCas? ==> th.r in s.recs && (th'.AddCas? <==> spurious || s.list != s.recs[th.r].next))
  }

  /** A compare-exchange of `push`, of `pop` and of the reclaim list goes through exactly if
      it finds what the thread read before, or, being weak, fails for no reason. */
  lemma ExchangeVerdict(states: seq<State>, who: seq<Tid>, how: seq<Choice>, k: nat)
    requires Run(states, who, how) && k < |who| && who[k] in states[k].threads
    requires var th := states[k].threads[who[k]]; th.PushCas? || th.NextRead? || th.Revalidate? || th.AddCas?
    ensures Exchanges(states[k], states[k + 1], who[k], how[k].Continue? && how[k].spurious)
  {
    hide Inv, Run, Exchanges, SetNext, PushCommit, Recheck, Unlink, LinkRecord, AddRecord;
    StepOf(states, who, how, k);
    var s, t, c := states[k], who[k], how[k];
    match s.threads[t]
    case PushCas(n) => PushExchanges(s, t, n, c.spurious);
    case NextRead(p, next) => PopExchanges(s, t, p, next, c.spurious);
    case Revalidate(seen) => LookExchanges(s, t, seen, c.spurious);
    case AddCas(r, res, go) => ListExchanges(s, t, r, res, go, c.spurious);
  }

  lemma PushExchanges(s: State, t: Tid, n: Addr, spurious: bool)
    requires t in s.threads && s.threads[t] == PushCas(n) && !PushCommit(s, t, n, spurious).fault
    ensures Exchanges(s, PushCommit(s, t, n, spurious), t, spurious)
  {
  }

  lemma PopExchanges(s: State, t: Tid, p: Addr, next: Option<Addr>, spurious: bool)
    requires t in s.threads && s.threads[t] == NextRead(p, next)
    ensures Exchanges(s, Unlink(s, t, p, next), t, spurious)
  {
  }

  lemma LookExchanges(s: State, t: Tid, seen: Option<Addr>, spurious: bool)
    requires t in s.threads && s.threads[t] == Revalidate(seen)
    ensures Exchanges(s, Recheck(s, t, seen), t, spurious)
  {
  }

  lemma ListExchanges(s: State, t: Tid, r: Addr, res: Option<Value>, k: Cont, spurious: bool)
    requires t in s.threads && s.threads[t] == AddCas(r, res, k) && !AddRecord(s, t, r, res, k, spurious).fault
    ensures Exchanges(s, AddRecord(s, t, r, res, k, spurious), t, spurious)
  {
  }

  // ---------------------------------------------------------------------------------------
  // One record of the drain
  // ---------------------------------------------------------------------------------------

  ghost predicate AtNext(s: State, t: Tid) {
    t in s.threads && s.threads[t].DrainNext?
  }

  /** In one of the steps from `i` to `j` thread `t` released the node. */
  ghost predicate Gone(states: seq<State>, who: seq<Tid>, t: Tid, p: Addr, i: nat, j: nat)
    requires j <= |who| < |states|
  {
    exists k: nat :: i <= k < j && who[k] == t && p in states[k].heap && p !in states[k + 1].heap
  }

  /** In one of them it stood before a table with a slot that names the node. */
  ghost predicate Met(states: seq<State>, who: seq<Tid>, t: Tid, p: Addr, i: nat, j: nat)
    requires j <= |who| < |states|
  {
    exists k: nat :: i <= k < j && who[k] == t && Named(states[k], p)
  }

  /** Where a thread stands between taking up record `r` of node `p` and the next record. */
  predicate Pass(th: Thread, r: Addr, p: Addr, gone: bool, met: bool) {
    match th
    case ScanRec(r', p', _, _, _, _) => r' == r && p' == p
    case FreeData(r', p', _, _, _) => r' == r && p' == p
    case FreeRec(r', _, _, _) => r' == r && gone
    case AddLink(r', _, Resume(_, _)) => r' == r && met
    case AddCas(r', _, Resume(_, _)) => r' == r && met
    case _ => false
  }

  lemma PassBegins(s: State, t: Tid, c: Choice, r: Addr)
    requires Enabled(s, t, c) && AtNext(s, t) && s.threads[t].cur == Some(r) && !Next(s, t, c).fault
    ensures t in Next(s, t, c).threads && !AtNext(Next(s, t, c), t) && r in s.recs && Pass(Next(s, t, c).threads[t], r, s.recs[r].data, false, false)
  {
  }

  /** One step of thread `t` on its way from one record to the next. */
  ghost predicate PassesOn(s: State, s': State, t: Tid, r: Addr, p: Addr, gone: bool, met: bool) {
    && t in s'.threads
    && (if s'.threads[t].DrainNext? then (gone && r in s.recs && r !in s'.recs) || (met && s'.list == Some(r))
        else Pass(s'.threads[t], r, p, gone || (p in s.heap && p !in s'.heap), met || Named(s, p)))
  }

  lemma PassStep(s: State, t: Tid, c: Choice, r: Addr, p: Addr, gone: bool, met: bool)
    requires Enabled(s, t, c) && t in s.threads && Pass(s.threads[t], r, p, gone, met) && !Next(s, t, c).fault
    ensures PassesOn(s, Next(s, t, c), t, r, p, gone, met)
  {
    hide PassesOn, ReleaseData, ReleaseRec, LinkRecord, AddRecord;
    match s.threads[t]
    case ScanRec(_, _, i, cur, chain, res) => ScanPasses(s, t, r, p, i, cur, chain, res, gone, met);
    case FreeData(_, _, cur, chain, res) => FreePasses(s, t, r, p, cur, chain, res, gone, met);
    case FreeRec(_, cur, chain, res) => DonePasses(s, t, r, p, cur, chain, res, met);
    case AddLink(_, res, k) => LinkPasses(s, t, r, p, res, k, gone);
    case AddCas(_, res, k) => AddPasses(s, t, r, p, res, k, c.spurious, gone);
  }

  lemma ScanPasses(s: State, t: Tid, r: Addr, p: Addr, i: nat, cur: Option<Addr>, c: ChainId, res: Option<Value>, gone: bool, met: bool)
    ensures PassesOn(s, ScanForRec(s, t, r, p, i, cur, c, res), t, r, p, gone, met)
  {
  }

  lemma FreePasses(s: State, t: Tid, r: Addr, p: Addr, cur: Option<Addr>, c: ChainId, res: Option<Value>, gone: bool, met: bool)
    requires !ReleaseData(s, t, r, p, cur, c, res).fault
    ensures PassesOn(s, ReleaseData(s, t, r, p, cur, c, res), t, r, p, gone, met)
  {
  }

  lemma DonePasses(s: State, t: Tid, r: Addr, p: Addr, cur: Option<Addr>, c: ChainId, res: Option<Value>, met: bool)
    requires !ReleaseRec(s, t, r, cur, c, res).fault
    ensures PassesOn(s, ReleaseRec(s, t, r, cur, c, res), t, r, p, true, met)
  {
  }

  lemma LinkPasses(s: State, t: Tid, r: Addr, p: Addr, res: Option<Value>, k: Cont, gone: bool)
    requires k.Resume? && !LinkRecord(s, t, r, res, k).fault
    ensures PassesOn(s, LinkRecord(s, t, r, res, k), t, r, p, gone, true)
  {
  }

  lemma AddPasses(s: State, t: Tid, r: Addr, p: Addr, res: Option<Value>, k: Cont, spurious: bool, gone: bool)
    requires k.Resume? && !AddRecord(s, t, r, res, k, spurious).fault
    ensures PassesOn(s, AddRecord(s, t, r, res, k, spurious), t, r, p, gone, true)
  {
    hide LinkRecord;
    if r in s.recs && !(s.list == s.recs[r].next && !spurious) { LinkPasses(s, t, r, p, res, k, gone); }
  }

  /** Thread `t` takes up record `r` in step `i`, and by step `k` has not taken up another. */
  ghost predicate Round(states: seq<State>, who: seq<Tid>, how: seq<Choice>, t: Tid, r: Addr, i: nat, k: nat) {
    && Run(states, who, how) && i < k <= |who| < |states| && who[i] == t
    && AtNext(states[i], t) && states[i].threads[t].cur == Some(r)
    && forall m :: i < m < k ==> !AtNext(states[m], t)
  }

  lemma {:induction false} RoundKeeps(states: seq<State>, who: seq<Tid>, how: seq<Choice>, t: Tid, r: Addr, i: nat, k: nat)
    requires Round(states, who, how, t, r, i, k) && !AtNext(states[k], t)
    ensures t in states[k].threads && r in states[i].recs
    ensures var p := states[i].recs[r].data;
            Pass(states[k].threads[t], r, p, Gone(states, who, t, p, i, k), Met(states, who, t, p, i, k))
    decreases k
  {
    hide Inv, Init, Next, Enabled, Pass, Named, Run, Gone, Met, PassesOn;
    StepOf(states, who, how, k - 1);
    if k == i + 1 {
      PassBegins(states[i], t, how[i], r);
      PassMore(states[k].threads[t], r, states[i].recs[r].data, false, false,
               Gone(states, who, t, states[i].recs[r].data, i, k), Met(states, who, t, states[i].recs[r].data, i, k));
    } else {
      RoundKeeps(states, who, how, t, r, i, k - 1);
      RoundStep(states, who, how, t, r, states[i].recs[r].data, i, k);
    }
  }

  lemma PassMore(th: Thread, r: Addr, p: Addr, gone: bool, met: bool, gone': bool, met': bool)
    requires Pass(th, r, p, gone, met) && (gone ==> gone') && (met ==> met')
    ensures Pass(th, r, p, gone', met')
  {
  }

  /** What one more step adds to what thread `t` has done. */
  lemma Grows(states: seq<State>, who: seq<Tid>, t: Tid, p: Addr, i: nat, k: nat)
    requires i < k <= |who| < |states|
    ensures Gone(states, who, t, p, i, k - 1) ==> Gone(states, who, t, p, i, k)
    ensures who[k - 1] == t && p in states[k - 1].heap && p !in states[k].heap ==> Gone(states, who, t, p, i, k)
    ensures Met(states, who, t, p, i, k - 1) ==> Met(states, who, t, p, i, k)
    ensures who[k - 1] == t && Named(states[k - 1], p) ==> Met(states, who, t, p, i, k)
  {
    hide Named;
    assert states[k - 1 + 1] == states[k];
    if Met(states, who, t, p, i, k - 1) {
      var m: nat :| i <= m < k - 1 && who[m] == t && Named(states[m], p);
      assert i <= m < k;
    }
    if Gone(states, who, t, p, i, k - 1) {
      var m: nat :| i <= m < k - 1 && who[m] == t && p in states[m].heap && p !in states[m + 1].heap;
      assert i <= m < k;
    }
  }

  lemma RoundStep(states: seq<State>, who: seq<Tid>, how: seq<Choice>, t: Tid, r: Addr, p: Addr, i: nat, k: nat)
    requires Run(states, who, how) && i + 1 < k <= |who| < |states| && t in states[k - 1].threads
    requires Pass(states[k - 1].threads[t], r, p, Gone(states, who, t, p, i, k - 1), Met(states, who, t, p, i, k - 1))
    ensures t in states[k].threads
    ensures !AtNext(states[k], t) ==> Pass(states[k].threads[t], r, p, Gone(states, who, t, p, i, k), Met(states, who, t, p, i, k))
    ensures AtNext(states[k], t) ==> who[k - 1] == t
    ensures AtNext(states[k], t) ==>
      || (Gone(states, who, t, p, i, k - 1) && r in states[k - 1].recs && r !in states[k].recs)
      || (Met(states, who, t, p, i, k - 1) && states[k].list == Some(r))
  {
    hide Inv, Init, Next, Enabled, Named, Run, Gone, Met, Pass;
    StepOf(states, who, how, k - 1);
    Grows(states, who, t, p, i, k);
    var s, s' := states[k - 1], states[k];
    var gone, met := Gone(states, who, t, p, i, k - 1), Met(states, who, t, p, i, k - 1);
    if who[k - 1] == t {
      PassStep(s, t, how[k - 1], r, p, gone, met);
      if !s'.threads[t].DrainNext? {
        PassMore(s'.threads[t], r, p, gone || (p in s.heap && p !in s'.heap), met || Named(s, p), Gone(states, who, t, p, i, k), Met(states, who, t, p, i, k));
      }
    } else {
      OthersStand(s, who[k - 1], how[k - 1], t);
      PassMore(s'.threads[t], r, p, gone, met, Gone(states, who, t, p, i, k), Met(states, who, t, p, i, k));
      NotNext(s'.threads[t], r, p, gone, met);
    }
  }

  lemma NotNext(th: Thread, r: Addr, p: Addr, gone: bool, met: bool)
    requires Pass(th, r, p, gone, met)
    ensures !th.DrainNext? && !th.Returning?
  {
  }

  /** A drainer that is done with a record has released its node and then the record itself,
      or has read a slot that names the node and put the record back on the list. */
  lemma RecordVerdict(states: seq<State>, who: seq<Tid>, how: seq<Choice>, t: Tid, r: Addr, i: nat, j: nat)
    requires Round(states, who, how, t, r, i, j) && AtNext(states[j], t)
    ensures r in states[i].recs && i + 1 < j && who[j - 1] == t
    ensures var p := states[i].recs[r].data;
      || (Gone(states, who, t, p, i, j - 1) && r in states[j - 1].recs && r !in states[j].recs)
      || (Met(states, who, t, p, i, j - 1) && states[j].list == Some(r))
  {
    hide Inv, Init, Next, Enabled, Named, Run, Gone, Met, Pass;
    StepOf(states, who, how, i);
    PassBegins(states[i], t, how[i], r);
    if j > i + 1 {
      RoundKeeps(states, who, how, t, r, i, j - 1);
      RoundStep(states, who, how, t, r, states[i].recs[r].data, i, j);
    }
  }

  /** A node that no slot names while a drainer is at its record is released, and so is the
      record: the drainer does it before it goes on to the next. */
  lemma UnnamedIsReleased(states: seq<State>, who: seq<Tid>, how: seq<Choice>, t: Tid, r: Addr, i: nat, j: nat)
    requires Round(states, who, how, t, r, i, j) && AtNext(states[j], t)
    requires r in states[i].recs && forall m :: i <= m < j ==> !Named(states[m], states[i].recs[r].data)
    ensures Gone(states, who, t, states[i].recs[r].data, i, j - 1)
    ensures r in states[j - 1].recs && r !in states[j].recs
  {
    hide Run, Named, Gone;
    RecordVerdict(states, who, how, t, r, i, j);
  }

  // ---------------------------------------------------------------------------------------
  // The whole drain
  // ---------------------------------------------------------------------------------------

  ghost predicate OnList(s: State, r: Addr) {
    s.listed in s.chains && r in s.chains[s.listed].recs
  }

  /** Thread `t` holds chain `c` as its share, and record `r` of node `p` is still in it. */
  ghost predicate Ahead(s: State, t: Tid, c: ChainId, r: Addr, p: Addr) {
    && c in s.chains && s.chains[c].owner == Some(t) && r in s.chains[c].recs
    && r in s.recs && s.recs[r].data == p
  }

  /** Only the steps of reclaiming touch the records. */
  lemma RecordsStand(s: State, t: Tid, c: Choice)
    requires Enabled(s, t, c) && (c.Continue? ==> !Reclaiming(s.threads[t]))
    ensures SameRecords(s, Next(s, t, c))
  {
    hide Next, SameRecords;
    if Outside(s, t, c) { OutsideLeaves(s, t, c); }
    else if Writing(s.threads[t]) { WriteLeaves(s, t, c); }
    else if Looping(s.threads[t]) { LoopLeaves(s, t, c); }
    else if Owning(s.threads[t]) { OwnLeaves(s, t, c); }
    else if Pushing(s.threads[t]) { PushLeaves(s, t, c); }
    else { TableLeaves(s, t, c); }
  }

  /** No step but that which takes up the next record changes a drainer's share. */
  lemma ShareStands(s: State, u: Tid, k: Choice, t: Tid, c: ChainId, r: Addr, p: Addr)
    requires Inv(s) && Enabled(s, u, k) && Ahead(s, t, c, r, p) && !(u == t && AtNext(s, t))
    ensures Ahead(Next(s, u, k), t, c, r, p)
  {
    hide Inv, Ahead, Next, ThreadOk, ChainOk, ListOk, SlotsOk, LinkedOk, NodeOk, RecOk;
    if k.Continue? && Reclaiming(s.threads[u]) {
      InvAt(s, u, 0, r, c);
      AheadIn(s, t, c, r, p);
      ShareReclaims(s, u, k, t, c, r, p);
    } else {
      RecordsStand(s, u, k);
      SameShare(s, Next(s, u, k), t, c, r, p);
    }
  }

  lemma AheadIn(s: State, t: Tid, c: ChainId, r: Addr, p: Addr)
    requires Ahead(s, t, c, r, p)
    ensures c in s.chains && r in s.chains[c].recs
  {
  }

  lemma ShareReclaims(s: State, u: Tid, k: Choice, t: Tid, c: ChainId, r: Addr, p: Addr)
    requires Enabled(s, u, k) && k.Continue? && Reclaiming(s.threads[u]) && !(u == t && AtNext(s, t))
    requires Ahead(s, t, c, r, p) && ListOk(s) && c in s.chains && ChainOk(s, c) && ThreadOk(s, u)
    ensures Ahead(Next(s, u, k), t, c, r, p)
  {
    hide Ahead, ChainOk, ListOk, MakeRecord, LinkRecord, AddRecord, TakeList, NextRecord, ScanForRec, ReleaseData, ReleaseRec;
    hide OwnsOk, TableOk, ShareOk, HeldOf, HuskOf;
    match s.threads[u]
    case Retire(q, res) => ShareRetire(s, u, t, c, r, p, q, k.addr, res);
    case AddLink(q, res, go) => ShareLink(s, u, t, c, r, p, q, res, go);
    case AddCas(q, res, go) => ShareAdd(s, u, t, c, r, p, q, res, go, k.spurious);
    case DrainStart(res) => ShareTake(s, u, t, c, r, p, k.addr, res);
    case DrainNext(cur, d, res) => ShareNext(s, u, t, c, r, p, cur, d, res);
    case ScanRec(q, n, i, cur, d, res) => ShareScan(s, u, t, c, r, p, q, n, i, cur, d, res);
    case FreeData(q, n, cur, d, res) => ShareFree(s, u, t, c, r, p, q, n, cur, d, res);
    case FreeRec(q, cur, d, res) => ShareDone(s, u, t, c, r, p, q, cur, d, res);
  }

  lemma SameShare(s: State, s': State, t: Tid, c: ChainId, r: Addr, p: Addr)
    requires SameRecords(s, s') && Ahead(s, t, c, r, p)
    ensures Ahead(s', t, c, r, p)
  {
  }

  lemma ShareRetire(s: State, u: Tid, t: Tid, c: ChainId, r: Addr, p: Addr, q: Addr, a: Addr, res: Option<Value>)
    requires Ahead(s, t, c, r, p) && a !in s.recs
    ensures Ahead(MakeRecord(s, u, q, a, res), t, c, r, p)
  {
  }

  lemma ShareLink(s: State, u: Tid, t: Tid, c: ChainId, r: Addr, p: Addr, q: Addr, res: Option<Value>, k: Cont)
    requires Ahead(s, t, c, r, p)
    ensures Ahead(LinkRecord(s, u, q, res, k), t, c, r, p)
  {
  }

  lemma ShareAdd(s: State, u: Tid, t: Tid, c: ChainId, r: Addr, p: Addr, q: Addr, res: Option<Value>, k: Cont, spurious: bool)
    requires Ahead(s, t, c, r, p) && ListOk(s)
    ensures Ahead(AddRecord(s, u, q, res, k, spurious), t, c, r, p)
  {
    hide LinkRecord, Top;
    ShareLink(s, u, t, c, r, p, q, res, k);
  }

  lemma ShareTake(s: State, u: Tid, t: Tid, c: ChainId, r: Addr, p: Addr, d: ChainId, res: Option<Value>)
    requires Ahead(s, t, c, r, p) && ListOk(s) && d !in s.chains
    ensures Ahead(TakeList(s, u, d, res), t, c, r, p)
  {
  }

  lemma ShareNext(s: State, u: Tid, t: Tid, c: ChainId, r: Addr, p: Addr, cur: Option<Addr>, d: ChainId, res: Option<Value>)
    requires Ahead(s, t, c, r, p) && u != t && ShareOk(s, u, Some((d, cur)))
    ensures Ahead(NextRecord(s, u, cur, d, res), t, c, r, p)
  {
  }

  lemma ShareScan(s: State, u: Tid, t: Tid, c: ChainId, r: Addr, p: Addr, q: Addr, n: Addr, i: nat, cur: Option<Addr>, d: ChainId, res: Option<Value>)
    requires Ahead(s, t, c, r, p)
    ensures Ahead(ScanForRec(s, u, q, n, i, cur, d, res), t, c, r, p)
  {
  }

  lemma ShareFree(s: State, u: Tid, t: Tid, c: ChainId, r: Addr, p: Addr, q: Addr, n: Addr, cur: Option<Addr>, d: ChainId, res: Option<Value>)
    requires Ahead(s, t, c, r, p)
    ensures Ahead(ReleaseData(s, u, q, n, cur, d, res), t, c, r, p)
  {
  }

  lemma ShareDone(s: State, u: Tid, t: Tid, c: ChainId, r: Addr, p: Addr, q: Addr, cur: Option<Addr>, d: ChainId, res: Option<Value>)
    requires Ahead(s, t, c, r, p) && ChainOk(s, c) && u in s.threads && s.threads[u] == FreeRec(q, cur, d, res) && RecordsOk(s, u, s.threads[u])
    ensures Ahead(ReleaseRec(s, u, q, cur, d, res), t, c, r, p)
  {
    hide Below, ShareOk, Drains;
    var i :| 0 <= i < |s.chains[c].recs| && s.chains[c].recs[i] == r;
    assert s.recs[r].place == InChain(c, i);
  }

  lemma NextTakes(s: State, t: Tid, k: Choice, c: ChainId, r: Addr, p: Addr)
    requires Inv(s) && Enabled(s, t, k) && AtNext(s, t) && Ahead(s, t, c, r, p)
    ensures s.threads[t].cur == Some(r) || Ahead(Next(s, t, k), t, c, r, p)
  {
    hide Inv, Next, Below, NodeOk, OwnsOk, TableOk, SlotsOk, LinkedOk, RecOk, Enabled;
    InvAt(s, t, 0, 0, c);
    TakesTop(s, t, k, c, r, p);
  }

  lemma TakesTop(s: State, t: Tid, k: Choice, c: ChainId, r: Addr, p: Addr)
    requires Enabled(s, t, k) && AtNext(s, t) && Ahead(s, t, c, r, p) && ShareOk(s, t, Some((c, s.threads[t].cur))) && s.threads[t].chain == c
    ensures s.threads[t].cur == Some(r) || Ahead(Next(s, t, k), t, c, r, p)
  {
  }

  /** Thread `t` takes up record `r`, which still names node `p`, at step `v`. */
  ghost predicate TakesUp(states: seq<State>, who: seq<Tid>, t: Tid, r: Addr, p: Addr, v: nat)
    requires v < |who| < |states|
  {
    who[v] == t && AtNext(states[v], t) && states[v].threads[t].cur == Some(r) && r in states[v].recs && states[v].recs[r].data == p
  }

  lemma {:induction false} Visits(states: seq<State>, who: seq<Tid>, how: seq<Choice>, t: Tid, c: ChainId, r: Addr, p: Addr, i: nat, k: nat)
    requires Run(states, who, how) && i <= k <= |who| < |states| && Ahead(states[i], t, c, r, p)
    ensures Ahead(states[k], t, c, r, p) || exists v: nat :: i <= v < k && TakesUp(states, who, t, r, p, v)
    decreases k
  {
    hide Run, Next, Inv, Enabled, Ahead, AtNext, TakesUp;
    if k > i {
      Visits(states, who, how, t, c, r, p, i, k - 1);
      StepOf(states, who, how, k - 1);
      if Ahead(states[k - 1], t, c, r, p) {
        VisitStep(states, who, how, t, c, r, p, k - 1);
        assert k - 1 + 1 == k;
      }
    }
  }

  lemma VisitStep(states: seq<State>, who: seq<Tid>, how: seq<Choice>, t: Tid, c: ChainId, r: Addr, p: Addr, k: nat)
    requires Run(states, who, how) && k < |who| < |states| && Ahead(states[k], t, c, r, p)
    ensures Ahead(states[k + 1], t, c, r, p) || TakesUp(states, who, t, r, p, k)
  {
    hide Run, Next, Inv, Enabled;
    StepOf(states, who, how, k);
    if who[k] == t && AtNext(states[k], t) {
      NextTakes(states[k], t, how[k], c, r, p);
    } else {
      ShareStands(states[k], who[k], how[k], t, c, r, p);
    }
  }

  lemma NoShareLeft(s: State, t: Tid, c: ChainId, r: Addr, p: Addr)
    requires Inv(s) && Ahead(s, t, c, r, p)
    ensures t in s.threads && !s.threads[t].Returning?
  {
    hide Inv, Below, NodeOk, ThreadOk, SlotsOk, LinkedOk, RecOk;
    InvAt(s, t, 0, 0, c);
  }

  lemma TakesShare(s: State, t: Tid, k: Choice, r: Addr)
    requires Inv(s) && Enabled(s, t, k) && t in s.threads && s.threads[t].DrainStart? && OnList(s, r)
    ensures r in s.recs && Ahead(Next(s, t, k), t, s.listed, r, s.recs[r].data)
  {
    hide Inv, Next, Below, Drains, RecOk, NodeOk, ThreadOk, SlotsOk, LinkedOk, Top, Enabled, Ahead;
    InvAt(s, t, 0, r, s.listed);
    SharesList(s, t, k, r);
  }

  lemma SharesList(s: State, t: Tid, k: Choice, r: Addr)
    requires Enabled(s, t, k) && t in s.threads && s.threads[t].DrainStart? && OnList(s, r) && r in s.recs
    ensures Ahead(Next(s, t, k), t, s.listed, r, s.recs[r].data)
  {
  }

  /** The first place after `v` where thread `t` is done with the record it took up there. */
  lemma {:induction false} DoneWith(states: seq<State>, who: seq<Tid>, how: seq<Choice>, t: Tid, r: Addr, v: nat, j: nat) returns (w: nat)
    requires Run(states, who, how) && v < j <= |who| < |states| && who[v] == t && AtNext(states[v], t) && states[v].threads[t].cur == Some(r)
    requires t in states[j].threads && states[j].threads[t].Returning?
    ensures v < w < j && Round(states, who, how, t, r, v, w) && AtNext(states[w], t)
  {
    hide Run, AtNext, Gone, Met, Pass;
    w := v + 1;
    while w < j && !AtNext(states[w], t)
      invariant v < w <= j && forall m :: v < m < w ==> !AtNext(states[m], t)
    {
      w := w + 1;
    }
    if w == j {
      NotDone(states[j], t);
      RoundKeeps(states, who, how, t, r, v, j);
      var p := states[v].recs[r].data;
      NotNext(states[j].threads[t], r, p, Gone(states, who, t, p, v, j), Met(states, who, t, p, v, j));
    }
  }

  lemma NotDone(s: State, t: Tid)
    requires t in s.threads && s.threads[t].Returning?
    ensures !AtNext(s, t)
  {
  }

  /** A pop that drains deals with the whole list it took: by the time it returns it has
      released every node of it, but for those that a slot named when it stood at them. */
  lemma DrainJudgesAll(states: seq<State>, who: seq<Tid>, how: seq<Choice>, t: Tid, r: Addr, i: nat, j: nat)
    requires Run(states, who, how) && i < j <= |who| && who[i] == t
    requires t in states[i].threads && states[i].threads[t].DrainStart? && OnList(states[i], r)
    requires t in states[j].threads && states[j].threads[t].Returning?
    ensures r in states[i].recs && |who| < |states|
    ensures var p := states[i].recs[r].data; Gone(states, who, t, p, i, j) || Met(states, who, t, p, i, j)
  {
    hide Run, Next, Inv, Enabled, Ahead, AtNext, Gone, Met, OnList;
    StepOf(states, who, how, i);
    TakesShare(states[i], t, how[i], r);
    var p := states[i].recs[r].data;
    Visits(states, who, how, t, states[i].listed, r, p, i + 1, j);
    StepOf(states, who, how, j - 1);
    assert j - 1 + 1 == j;
    if Ahead(states[j], t, states[i].listed, r, p) { NoShareLeft(states[j], t, states[i].listed, r, p); }
    var v: nat :| i + 1 <= v < j && TakesUp(states, who, t, r, p, v);
    var w := DoneWith(states, who, how, t, r, v, j);
    RecordVerdict(states, who, how, t, r, v, w);
    Widen(states, who, t, p, v, w - 1, i, j);
  }

  lemma Widen(states: seq<State>, who: seq<Tid>, t: Tid, p: Addr, v: nat, w: nat, i: nat, j: nat)
    requires i <= v && w <= j <= |who| < |states|
    ensures Gone(states, who, t, p, v, w) ==> Gone(states, who, t, p, i, j)
    ensures Met(states, who, t, p, v, w) ==> Met(states, who, t, p, i, j)
  {
    hide Named;
  }

  // ---------------------------------------------------------------------------------------
  // A pop that unlinks a node
  // ---------------------------------------------------------------------------------------

  /** In this step thread `t` takes the whole list to drain it. */
  ghost predicate TakesList(s: State, s': State, t: Tid) {
    && t in s.threads && s.threads[t].DrainStart? && s'.list == None
    && AtNext(s', t) && s'.threads[t].cur == s.list
  }

  ghost predicate Took(states: seq<State>, who: seq<Tid>, t: Tid, i: nat, j: nat)
    requires j <= |who| < |states|
  {
    exists k: nat :: i <= k < j && who[k] == t && TakesList(states[k], states[k + 1], t)
  }

  /** Where a popper stands that has unlinked `p`, up to its return. */
  predicate Won(th: Thread, p: Addr, gone: bool, met: bool, took: bool) {
    match th
    case ClearWon(p') => p' == p
    case Swap(p') => p' == p
    case ScanOwn(p', _, _) => p' == p
    case FreeOwn(p', _) => p' == p
    case Retire(p', _) => p' == p && met
    case AddLink(_, _, ThenDrain) => met
    case AddCas(_, _, ThenDrain) => met
    case DrainStart(_) => gone || met
    case Returning(_) => (gone || met) && took
    case _ => DrainOf(th).Some? && (gone || met) && took
  }

  /** One step of thread `t` between unlinking `p` and returning. */
  ghost predicate WinsOn(s: State, s': State, t: Tid, p: Addr, gone: bool, met: bool, took: bool) {
    && t in s'.threads
    && Won(s'.threads[t], p, gone || (p in s.heap && p !in s'.heap), met || Named(s, p), took || TakesList(s, s', t))
  }

  lemma WonStep(s: State, t: Tid, c: Choice, p: Addr, gone: bool, met: bool, took: bool)
    requires Enabled(s, t, c) && t in s.threads && Won(s.threads[t], p, gone, met, took) && !s.threads[t].Returning? && !Next(s, t, c).fault
    ensures WinsOn(s, Next(s, t, c), t, p, gone, met, took)
  {
    hide WinsOn, Next, Named, TakesList;
    match s.threads[t]
    case ClearWon(_) => OwnWins(s, t, c, p, gone, met, took);
    case Swap(_) => OwnWins(s, t, c, p, gone, met, took);
    case ScanOwn(_, _, _) => ScanWins(s, t, c, p, gone, met, took);
    case FreeOwn(_, _) => FreeWins(s, t, c, p, gone, met, took);
    case Retire(_, _) => RetireWins(s, t, c, p, gone, met, took);
    case AddLink(_, _, ThenDrain) => LinkWins(s, t, c, p, gone, met, took);
    case AddCas(_, _, ThenDrain) => AddWins(s, t, c, p, gone, met, took);
    case DrainStart(_) => TakeWins(s, t, c, p, gone, met, took);
    case _ => DrainWins(s, t, c, p, gone, met, took);
  }

  lemma OwnWins(s: State, t: Tid, c: Choice, p: Addr, gone: bool, met: bool, took: bool)
    requires Enabled(s, t, c) && t in s.threads && Won(s.threads[t], p, gone, met, took) && (s.threads[t].ClearWon? || s.threads[t].Swap?) && !Next(s, t, c).fault
    ensures WinsOn(s, Next(s, t, c), t, p, gone, met, took)
  {
    hide Named, TakesList;
  }

  lemma ScanWins(s: State, t: Tid, c: Choice, p: Addr, gone: bool, met: bool, took: bool)
    requires Enabled(s, t, c) && t in s.threads && Won(s.threads[t], p, gone, met, took) && s.threads[t].ScanOwn? && !Next(s, t, c).fault
    ensures WinsOn(s, Next(s, t, c), t, p, gone, met, took)
  {
    hide TakesList;
  }

  lemma RetireWins(s: State, t: Tid, c: Choice, p: Addr, gone: bool, met: bool, took: bool)
    requires Enabled(s, t, c) && t in s.threads && Won(s.threads[t], p, gone, met, took) && s.threads[t].Retire? && !Next(s, t, c).fault
    ensures WinsOn(s, Next(s, t, c), t, p, gone, met, took)
  {
    hide Named, TakesList;
  }

  lemma LinkWins(s: State, t: Tid, c: Choice, p: Addr, gone: bool, met: bool, took: bool)
    requires Enabled(s, t, c) && t in s.threads && Won(s.threads[t], p, gone, met, took) && s.threads[t].AddLink? && s.threads[t].k.ThenDrain? && !Next(s, t, c).fault
    ensures WinsOn(s, Next(s, t, c), t, p, gone, met, took)
  {
    hide Named, TakesList;
  }

  lemma AddWins(s: State, t: Tid, c: Choice, p: Addr, gone: bool, met: bool, took: bool)
    requires Enabled(s, t, c) && t in s.threads && Won(s.threads[t], p, gone, met, took) && s.threads[t].AddCas? && s.threads[t].k.ThenDrain? && !Next(s, t, c).fault
    ensures WinsOn(s, Next(s, t, c), t, p, gone, met, took)
  {
    hide Named, TakesList;
  }

  lemma TakeWins(s: State, t: Tid, c: Choice, p: Addr, gone: bool, met: bool, took: bool)
    requires Enabled(s, t, c) && t in s.threads && Won(s.threads[t], p, gone, met, took) && s.threads[t].DrainStart? && !Next(s, t, c).fault
    ensures WinsOn(s, Next(s, t, c), t, p, gone, met, took)
  {
    hide Named;
  }

  lemma FreeWins(s: State, t: Tid, c: Choice, p: Addr, gone: bool, met: bool, took: bool)
    requires Enabled(s, t, c) && t in s.threads && Won(s.threads[t], p, gone, met, took) && s.threads[t].FreeOwn? && !Next(s, t, c).fault
    ensures WinsOn(s, Next(s, t, c), t, p, gone, met, took)
  {
    hide Named, TakesList;
  }

  lemma DrainWins(s: State, t: Tid, c: Choice, p: Addr, gone: bool, met: bool, took: bool)
    requires Enabled(s, t, c) && t in s.threads && DrainOf(s.threads[t]).Some? && (gone || met) && took && !Next(s, t, c).fault
    ensures WinsOn(s, Next(s, t, c), t, p, gone, met, took)
  {
    hide Named, TakesList, Next, DrainOf;
    DrainGoesOn(s, t, c);
    DrainIsWon(Next(s, t, c).threads[t], p, gone || (p in s.heap && p !in Next(s, t, c).heap), met || Named(s, p));
  }

  lemma DrainIsWon(th: Thread, p: Addr, gone: bool, met: bool)
    requires (DrainOf(th).Some? || th.Returning?) && (gone || met)
    ensures Won(th, p, gone, met, true)
  {
  }

  /** Thread `t` is still draining, or returns. */
  ghost predicate DrainsOn(s: State, t: Tid) {
    t in s.threads && (DrainOf(s.threads[t]).Some? || s.threads[t].Returning?)
  }

  lemma DrainGoesOn(s: State, t: Tid, c: Choice)
    requires Enabled(s, t, c) && t in s.threads && DrainOf(s.threads[t]).Some? && !Next(s, t, c).fault
    ensures DrainsOn(Next(s, t, c), t)
  {
    hide MakeRecord, LinkRecord, AddRecord, TakeList, NextRecord, ScanForRec, ReleaseData, ReleaseRec;
    match s.threads[t]
    case DrainNext(cur, d, res) => GoesOnNext(s, t, cur, d, res);
    case ScanRec(r, p, i, cur, d, res) => GoesOnScan(s, t, r, p, i, cur, d, res);
    case FreeData(r, p, cur, d, res) => GoesOnFree(s, t, r, p, cur, d, res);
    case FreeRec(r, cur, d, res) => GoesOnDone(s, t, r, cur, d, res);
    case AddLink(r, res, k) => GoesOnLink(s, t, r, res, k);
    case AddCas(r, res, k) => GoesOnAdd(s, t, r, res, k, c.spurious);
  }

  lemma GoesOnNext(s: State, t: Tid, cur: Option<Addr>, d: ChainId, res: Option<Value>)
    ensures !NextRecord(s, t, cur, d, res).fault ==> DrainsOn(NextRecord(s, t, cur, d, res), t)
  {
  }

  lemma GoesOnScan(s: State, t: Tid, r: Addr, p: Addr, i: nat, cur: Option<Addr>, d: ChainId, res: Option<Value>)
    ensures DrainsOn(ScanForRec(s, t, r, p, i, cur, d, res), t)
  {
  }

  lemma GoesOnFree(s: State, t: Tid, r: Addr, p: Addr, cur: Option<Addr>, d: ChainId, res: Option<Value>)
    ensures !ReleaseData(s, t, r, p, cur, d, res).fault ==> DrainsOn(ReleaseData(s, t, r, p, cur, d, res), t)
  {
  }

  lemma GoesOnDone(s: State, t: Tid, r: Addr, cur: Option<Addr>, d: ChainId, res: Option<Value>)
    ensures !ReleaseRec(s, t, r, cur, d, res).fault ==> DrainsOn(ReleaseRec(s, t, r, cur, d, res), t)
  {
  }

  lemma GoesOnLink(s: State, t: Tid, r: Addr, res: Option<Value>, k: Cont)
    requires k.Resume?
    ensures !LinkRecord(s, t, r, res, k).fault ==> DrainsOn(LinkRecord(s, t, r, res, k), t)
  {
  }

  lemma GoesOnAdd(s: State, t: Tid, r: Addr, res: Option<Value>, k: Cont, spurious: bool)
    requires k.Resume?
    ensures !AddRecord(s, t, r, res, k, spurious).fault ==> DrainsOn(AddRecord(s, t, r, res, k, spurious), t)
  {
    hide LinkRecord;
    GoesOnLink(s, t, r, res, k);
  }

  lemma WonMore(th: Thread, p: Addr, gone: bool, met: bool, took: bool, gone': bool, met': bool, took': bool)
    requires Won(th, p, gone, met, took) && (gone ==> gone') && (met ==> met') && (took ==> took')
    ensures Won(th, p, gone', met', took')
  {
  }

  lemma TookMore(states: seq<State>, who: seq<Tid>, t: Tid, i: nat, k: nat)
    requires i < k <= |who| < |states|
    ensures Took(states, who, t, i, k - 1) ==> Took(states, who, t, i, k)
    ensures who[k - 1] == t && TakesList(states[k - 1], states[k], t) ==> Took(states, who, t, i, k)
  {
    hide TakesList;
    assert states[k - 1 + 1] == states[k];
    if Took(states, who, t, i, k - 1) {
      var m: nat :| i <= m < k - 1 && who[m] == t && TakesList(states[m], states[m + 1], t);
      assert i <= m < k;
    }
  }

  ghost predicate Returns(s: State, t: Tid) {
    t in s.threads && s.threads[t].Returning?
  }

  lemma {:induction false} WonKeeps(states: seq<State>, who: seq<Tid>, how: seq<Choice>, t: Tid, p: Addr, i: nat, k: nat)
    requires Run(states, who, how) && i <= k <= |who| < |states|
    requires t in states[i].threads && states[i].threads[t] == ClearWon(p) && forall m :: i <= m < k ==> !Returns(states[m], t)
    ensures t in states[k].threads
    ensures Won(states[k].threads[t], p, Gone(states, who, t, p, i, k), Met(states, who, t, p, i, k), Took(states, who, t, i, k))
    decreases k
  {
    hide Run, Inv, Next, Enabled, Won, Named, Gone, Met, Took, WinsOn;
    if k == i {
      WonBegins(states[i].threads[t], p, Gone(states, who, t, p, i, k), Met(states, who, t, p, i, k), Took(states, who, t, i, k));
    } else {
      WonKeeps(states, who, how, t, p, i, k - 1);
      WonOnward(states, who, how, t, p, i, k);
    }
  }

  lemma WonBegins(th: Thread, p: Addr, gone: bool, met: bool, took: bool)
    requires th == ClearWon(p)
    ensures Won(th, p, gone, met, took)
  {
  }

  lemma WonOnward(states: seq<State>, who: seq<Tid>, how: seq<Choice>, t: Tid, p: Addr, i: nat, k: nat)
    requires Run(states, who, how) && i < k <= |who| < |states| && t in states[k - 1].threads && !Returns(states[k - 1], t)
    requires Won(states[k - 1].threads[t], p, Gone(states, who, t, p, i, k - 1), Met(states, who, t, p, i, k - 1), Took(states, who, t, i, k - 1))
    ensures t in states[k].threads
    ensures Won(states[k].threads[t], p, Gone(states, who, t, p, i, k), Met(states, who, t, p, i, k), Took(states, who, t, i, k))
  {
    hide Run, Inv, Next, Enabled, Won, Named, Gone, Met, Took, TakesList;
    StepOf(states, who, how, k - 1);
    Grows(states, who, t, p, i, k);
    TookMore(states, who, t, i, k);
    var s, s' := states[k - 1], states[k];
    var gone, met, took := Gone(states, who, t, p, i, k - 1), Met(states, who, t, p, i, k - 1), Took(states, who, t, i, k - 1);
    var gone', met', took' := Gone(states, who, t, p, i, k), Met(states, who, t, p, i, k), Took(states, who, t, i, k);
    if who[k - 1] == t {
      WonStep(s, t, how[k - 1], p, gone, met, took);
      WonMore(s'.threads[t], p, gone || (p in s.heap && p !in s'.heap), met || Named(s, p), took || TakesList(s, s', t), gone', met', took');
    } else {
      OthersStand(s, who[k - 1], how[k - 1], t);
      WonMore(s'.threads[t], p, gone, met, took, gone', met', took');
    }
  }

  /** A pop that has unlinked a node does not return before it has released it, or has stood
      before a table that names it, and has taken the whole list to drain it. */
  lemma WinnersDuty(states: seq<State>, who: seq<Tid>, how: seq<Choice>, t: Tid, p: Addr, i: nat, j: nat)
    requires Run(states, who, how) && i <= j <= |who| < |states|
    requires t in states[i].threads && states[i].threads[t] == ClearWon(p)
    requires Returns(states[j], t) && forall m :: i <= m < j ==> !Returns(states[m], t)
    ensures Gone(states, who, t, p, i, j) || Met(states, who, t, p, i, j)
    ensures Took(states, who, t, i, j)
  {
    hide Run, Gone, Met, Took;
    WonKeeps(states, who, how, t, p, i, j);
  }

  // ---------------------------------------------------------------------------------------
  // The table
  // ---------------------------------------------------------------------------------------

  /** The loop of `pop`, up to the store that clears the slot. */
  predicate InLoop(th: Thread) {
    th.Publish? || th.Revalidate? || th.Validated? || th.NextRead? || th.ClearWon?
  }

  /** A slot that names a node belongs to a thread in the loop of `pop`. */
  ghost predicate SlotLaw(s: State, m: nat) {
    m < |s.slots| && s.slots[m].ptr.Some? ==>
      && s.slots[m].id.Some?
      && var t := s.slots[m].id.value; t in s.mine && s.mine[t] == m && t in s.threads && InLoop(s.threads[t])
  }

  lemma TableKept(s: State, t: Tid, c: Choice)
    requires Enabled(s, t, c) && (c.Continue? ==> !Writing(s.threads[t]) && !Holding(s.threads[t]))
    ensures SameTable(s, Next(s, t, c))
  {
    hide Next, SameTable;
    if Outside(s, t, c) { OutsideLeaves(s, t, c); }
    else if Recording(s.threads[t]) { RecordLeaves(s, t, c); }
    else if Reclaiming(s.threads[t]) { DrainLeaves(s, t, c); }
    else if Looping(s.threads[t]) { LoopLeaves(s, t, c); }
    else if Owning(s.threads[t]) { OwnLeaves(s, t, c); }
    else { PushLeaves(s, t, c); }
  }

  /** A thread leaves the loop with its slot cleared. */
  lemma LoopStays(s: State, t: Tid, c: Choice)
    requires Inv(s) && Enabled(s, t, c) && t in s.threads && InLoop(s.threads[t]) && !Writing(s.threads[t]) && !Next(s, t, c).fault
    ensures
      var s' := Next(s, t, c);
      t in s'.threads && (InLoop(s'.threads[t]) || (t in s.mine && s.mine[t] < |s.slots| && s.slots[s.mine[t]].ptr == None))
  {
    hide Inv, OwnsOk, RecordsOk, NodeOk, RecOk, ChainOk, LinkedOk, ListOk;
    InvAt(s, t, 0, 0, 0);
  }

  lemma SlotStep(s: State, t: Tid, c: Choice, m: nat)
    requires Inv(s) && Enabled(s, t, c) && !Next(s, t, c).fault && SlotLaw(s, m)
    ensures SlotLaw(Next(s, t, c), m)
  {
    hide Inv, Next, SlotLaw, NodeOk, RecOk, ChainOk, LinkedOk, ListOk, OwnsOk, RecordsOk;
    InvAt(s, t, 0, 0, 0);
    if c.Continue? && Writing(s.threads[t]) { WriteSlotLaw(s, t, c, m); }
    else if c.Continue? && s.threads[t].Claim? { ClaimSlotLaw(s, t, c, m); }
    else if c.Continue? && s.threads[t].ExitRelease? { ReleaseSlotLaw(s, t, c, m); }
    else {
      TableKept(s, t, c);
      if t in s.threads && InLoop(s.threads[t]) { LoopStays(s, t, c); }
      KeepSlotLaw(s, t, c, m);
    }
  }

  /** The thread a slot belongs to. */
  ghost predicate OwnedBy(s: State, m: nat, u: Tid) {
    m < |s.slots| && s.slots[m].id == Some(u) && u in s.mine && s.mine[u] == m
  }

  lemma KeepSlotLaw(s: State, t: Tid, c: Choice, m: nat)
    requires Enabled(s, t, c) && SameTable(s, Next(s, t, c)) && SlotLaw(s, m)
    requires t in s.threads && InLoop(s.threads[t]) ==>
      t in Next(s, t, c).threads && (InLoop(Next(s, t, c).threads[t]) || (t in s.mine && s.mine[t] < |s.slots| && s.slots[s.mine[t]].ptr == None))
    ensures SlotLaw(Next(s, t, c), m)
  {
    hide Next, Enabled;
    if m < |s.slots| && s.slots[m].id.Some? && s.slots[m].id.value != t { OthersStand(s, t, c, s.slots[m].id.value); }
  }

  lemma WriteSlotLaw(s: State, t: Tid, c: Choice, m: nat)
    requires Enabled(s, t, c) && c.Continue? && Writing(s.threads[t]) && SlotLaw(s, m) && SlotsOk(s) && !Next(s, t, c).fault
    ensures SlotLaw(Next(s, t, c), m)
  {
    hide SlotLaw, WriteSlot, SlotsOk;
    match s.threads[t]
    case Publish(seen, _) => WrittenLaw(s, t, seen, Revalidate(seen), m);
    case ClearWon(p) => WrittenLaw(s, t, None, Swap(p), m);
    case ClearEmpty => WrittenLaw(s, t, None, Returning(None), m);
    case ExitClear => WrittenLaw(s, t, None, ExitRelease, m);
  }

  lemma WrittenLaw(s: State, t: Tid, ptr: Option<Addr>, th: Thread, m: nat)
    requires SlotLaw(s, m) && SlotsOk(s) && (ptr.Some? ==> InLoop(th)) && !WriteSlot(s, t, ptr, th).fault
    ensures SlotLaw(WriteSlot(s, t, ptr, th), m)
  {
    hide InLoop;
    var s' := WriteSlot(s, t, ptr, th);
    if m == s.mine[t] {
      assert s'.slots[m] == Slot(Some(t), ptr) && s'.threads[t] == th;
    } else if m < |s.slots| {
      assert s'.slots[m] == s.slots[m] && s'.mine == s.mine;
    }
  }

  lemma ClaimSlotLaw(s: State, t: Tid, c: Choice, m: nat)
    requires Enabled(s, t, c) && c.Continue? && s.threads[t].Claim? && SlotLaw(s, m) && t !in s.mine
    ensures SlotLaw(Next(s, t, c), m)
  {
  }

  lemma ReleaseSlotLaw(s: State, t: Tid, c: Choice, m: nat)
    requires Enabled(s, t, c) && c.Continue? && s.threads[t].ExitRelease? && SlotLaw(s, m) && SlotsOk(s) && !Next(s, t, c).fault
    ensures SlotLaw(Next(s, t, c), m)
  {
    hide SlotLaw, ReleaseSlot, SlotsOk;
    ReleasedLaw(s, t, m);
  }

  lemma ReleasedLaw(s: State, t: Tid, m: nat)
    requires SlotLaw(s, m) && SlotsOk(s) && t in s.threads && s.threads[t].ExitRelease? && !ReleaseSlot(s, t).fault
    ensures SlotLaw(ReleaseSlot(s, t), m)
  {
  }

  /** In every run a slot names a node only while its owner is in the loop of `pop`. */
  lemma {:induction false} SlotsCleared(states: seq<State>, who: seq<Tid>, how: seq<Choice>, i: nat, m: nat)
    requires Run(states, who, how) && i < |states|
    ensures SlotLaw(states[i], m)
  {
    hide Inv, Next, Enabled, SlotLaw, Init;
    if i == 0 {
      NothingNamed(states[0], m);
    } else {
      SlotsCleared(states, who, how, i - 1, m);
      StepOf(states, who, how, i - 1);
      SlotStep(states[i - 1], who[i - 1], how[i - 1], m);
    }
  }

  lemma NothingNamed(s: State, m: nat)
    requires Init(s)
    ensures SlotLaw(s, m)
  {
  }

  // ---------------------------------------------------------------------------------------
  // A pop that drains undisturbed
  // ---------------------------------------------------------------------------------------

  /** Thread `t`, alone, goes through the share it took, and nothing has come back on the list. */
  ghost predicate DrainsAlone(s: State, t: Tid) {
    && s.threads.Keys == {t} && s.listed in s.chains && s.chains[s.listed].recs == []
    && (s.threads[t].DrainNext? || s.threads[t].ScanRec? || s.threads[t].FreeData? || s.threads[t].FreeRec? || s.threads[t].Returning?)
  }

  lemma AloneBegins(s: State, t: Tid, c: Choice)
    requires Enabled(s, t, c) && s.threads.Keys == {t} && s.threads[t].DrainStart?
    ensures DrainsAlone(Next(s, t, c), t)
  {
  }

  lemma AloneStep(s: State, t: Tid, c: Choice)
    requires Inv(s) && Enabled(s, t, c) && DrainsAlone(s, t) && !s.threads[t].Returning? && !Next(s, t, c).fault
    requires s.threads[t].ScanRec? ==> !Named(s, s.threads[t].p)
    ensures DrainsAlone(Next(s, t, c), t)
  {
    hide Inv, Named, NodeOk, RecOk, LinkedOk, SlotsOk, OwnsOk, TableOk, ChainOk, NextRecord, ScanForRec, ReleaseData, ReleaseRec, Top;
    InvAt(s, t, 0, 0, 0);
    match s.threads[t]
    case DrainNext(cur, d, res) => AloneNext(s, t, cur, d, res);
    case ScanRec(r, p, i, cur, d, res) => AloneScan(s, t, r, p, i, cur, d, res);
    case FreeData(r, p, cur, d, res) => AloneFree(s, t, r, p, cur, d, res);
    case FreeRec(r, cur, d, res) => AloneDone(s, t, r, cur, d, res);
  }

  lemma AloneNext(s: State, t: Tid, cur: Option<Addr>, d: ChainId, res: Option<Value>)
    requires DrainsAlone(s, t) && ListOk(s) && ShareOk(s, t, Some((d, cur))) && !NextRecord(s, t, cur, d, res).fault
    ensures DrainsAlone(NextRecord(s, t, cur, d, res), t)
  {
    hide Top;
  }

  lemma AloneScan(s: State, t: Tid, r: Addr, p: Addr, i: nat, cur: Option<Addr>, d: ChainId, res: Option<Value>)
    requires DrainsAlone(s, t) && !Named(s, p)
    ensures DrainsAlone(ScanForRec(s, t, r, p, i, cur, d, res), t)
  {
  }

  lemma AloneFree(s: State, t: Tid, r: Addr, p: Addr, cur: Option<Addr>, d: ChainId, res: Option<Value>)
    requires DrainsAlone(s, t) && !ReleaseData(s, t, r, p, cur, d, res).fault
    ensures DrainsAlone(ReleaseData(s, t, r, p, cur, d, res), t)
  {
  }

  lemma AloneDone(s: State, t: Tid, r: Addr, cur: Option<Addr>, d: ChainId, res: Option<Value>)
    requires DrainsAlone(s, t) && !ReleaseRec(s, t, r, cur, d, res).fault
    ensures DrainsAlone(ReleaseRec(s, t, r, cur, d, res), t)
  {
  }

  /** A thread alone and out of the loop finds no node named in the table. */
  lemma NobodyNames(states: seq<State>, who: seq<Tid>, how: seq<Choice>, i: nat, t: Tid, p: Addr)
    requires Run(states, who, how) && i < |states| && states[i].threads.Keys == {t} && !InLoop(states[i].threads[t])
    ensures !Named(states[i], p)
  {
    hide Run, SlotLaw;
    forall m: nat | m < |states[i].slots| ensures states[i].slots[m].ptr == None {
      SlotsCleared(states, who, how, i, m);
      UnnamedSlot(states[i], t, m);
    }
  }

  lemma UnnamedSlot(s: State, t: Tid, m: nat)
    requires SlotLaw(s, m) && s.threads.Keys == {t} && !InLoop(s.threads[t])
    ensures m < |s.slots| ==> s.slots[m].ptr == None
  {
    hide InLoop;
    assert forall u :: u in s.threads ==> u in s.threads.Keys;
  }

  lemma {:induction false} AloneKeeps(states: seq<State>, who: seq<Tid>, how: seq<Choice>, t: Tid, i: nat, k: nat)
    requires Run(states, who, how) && i < k <= |who| < |states| && who[i] == t
    requires forall m :: i <= m <= k ==> states[m].threads.Keys == {t}
    requires states[i].threads[t].DrainStart? && forall m :: i <= m < k ==> !Returns(states[m], t)
    ensures DrainsAlone(states[k], t)
    decreases k
  {
    hide Run, Inv, Next, DrainsAlone, Named, InLoop;
    if k == i + 1 {
      StepOf(states, who, how, i);
      AloneBegins(states[i], t, how[i]);
    } else {
      AloneKeeps(states, who, how, t, i, k - 1);
      AloneOnward(states, who, how, t, k - 1);
    }
  }

  lemma AloneMoves(s: State, u: Tid, c: Choice, t: Tid)
    requires Enabled(s, u, c) && s.threads.Keys == {t} && Next(s, u, c).threads.Keys == {t}
    ensures u == t
  {
    hide Next;
    Joins(s, u, c);
    var before, after := s.threads, Next(s, u, c).threads;
    assert u in before ==> u in before.Keys;
    assert u in after ==> u in after.Keys;
  }

  lemma Joins(s: State, u: Tid, c: Choice)
    requires Enabled(s, u, c)
    ensures u in s.threads || u in Next(s, u, c).threads
  {
  }

  lemma AloneOnward(states: seq<State>, who: seq<Tid>, how: seq<Choice>, t: Tid, k: nat)
    requires Run(states, who, how) && k + 1 < |states| && DrainsAlone(states[k], t) && !Returns(states[k], t)
    requires states[k + 1].threads.Keys == {t}
    ensures DrainsAlone(states[k + 1], t)
  {
    hide Inv, Next, Named;
    StepOf(states, who, how, k);
    AloneMoves(states[k], who[k], how[k], t);
    NobodyNames(states, who, how, k, t, if states[k].threads[t].ScanRec? then states[k].threads[t].p else 0);
    AloneStep(states[k], t, how[k]);
  }

  /** A pop that drains while no other operation is under way leaves nothing behind: what is
      allocated when it returns is what is on the stack, and no record is left. */
  lemma DrainedAlone(states: seq<State>, who: seq<Tid>, how: seq<Choice>, t: Tid, i: nat, j: nat)
    requires Run(states, who, how) && i < j <= |who| < |states| && who[i] == t
    requires forall m :: i <= m <= j ==> states[m].threads.Keys == {t}
    requires states[i].threads[t].DrainStart? && Returns(states[j], t) && forall m :: i <= m < j ==> !Returns(states[m], t)
    ensures states[j].heap.Keys == (set a | a in states[j].linked) && states[j].recs == map[]
  {
    hide Inv, Next, Init;
    AloneKeeps(states, who, how, t, i, j);
    RunKeeps(states, who, how, j);
    NothingLeft(states[j], t);
  }

  lemma NothingLeft(s: State, t: Tid)
    requires Inv(s) && DrainsAlone(s, t) && s.threads[t].Returning?
    ensures s.heap.Keys == (set a | a in s.linked) && s.recs == map[]
  {
    hide Inv, NodeOk, RecOk, ChainOk, LinkedOk, SlotsOk, ThreadOk;
    forall r ensures r !in s.recs { NoRecordLeft(s, t, r); }
    forall a | a in s.heap ensures a in s.linked { NoNodeLeft(s, t, a); }
    forall a | a in s.linked ensures a in s.heap { InvAt(s, t, a, 0, 0); LinkedIn(s, a); }
  }

  lemma LinkedIn(s: State, a: Addr)
    requires LinkedOk(s) && a in s.linked
    ensures a in s.heap
  {
  }

  lemma NoRecordLeft(s: State, t: Tid, r: Addr)
    requires Inv(s) && DrainsAlone(s, t) && s.threads[t].Returning?
    ensures r !in s.recs
  {
    hide Inv, NodeOk, LinkedOk, SlotsOk, ThreadOk, Below;
    InvAt(s, t, 0, r, 0);
    if r in s.recs && s.recs[r].place.InChain? { InvAt(s, t, 0, r, s.recs[r].place.chain); }
  }

  lemma NoNodeLeft(s: State, t: Tid, a: Addr)
    requires Inv(s) && DrainsAlone(s, t) && s.threads[t].Returning? && a in s.heap
    ensures a in s.linked
  {
    hide Inv, LinkedOk, SlotsOk, ThreadOk, RecOk, ChainOk, DrainsAlone;
    InvAt(s, t, a, 0, 0);
    AloneThreads(s, t);
    if s.heap[a].place.Parked? { NoRecordLeft(s, t, s.heap[a].place.rec); }
  }

  lemma AloneThreads(s: State, t: Tid)
    requires DrainsAlone(s, t)
    ensures s.threads.Keys == {t} && forall u :: u in s.threads ==> u == t
  {
    assert forall u :: u in s.threads ==> u in s.threads.Keys;
  }

  // ---------------------------------------------------------------------------------------
  // The slots
  // ---------------------------------------------------------------------------------------

  /** What one look at slot `i` leads to. */
  ghost predicate Tries(s: State, s': State, t: Tid, i: nat) {
    && t in s'.threads && |s.slots| == |s'.slots| == MAX_HAZARD_POINTERS
    && var th' := s'.threads[t];
    && (th'.NoSlot? <==> i >= MAX_HAZARD_POINTERS)
    && (th'.PopStart? <==> i < MAX_HAZARD_POINTERS && s.slots[i].id == None)
    && (th'.PopStart? ==> s'.slots[i].id == Some(t) && s'.slots[i].ptr == None && t in s'.mine && s'.mine[t] == i)
    && (!th'.NoSlot? && !th'.PopStart? ==> th' == Claim(i + 1))
  }

  /** A thread looking for a hazard pointer tries slot after slot, takes the first that it
      finds without an owner, and gives up exactly when it has tried them all. */
  lemma ClaimVerdict(states: seq<State>, who: seq<Tid>, how: seq<Choice>, k: nat, i: nat)
    requires Run(states, who, how) && k < |who| && who[k] in states[k].threads && states[k].threads[who[k]] == Claim(i)
    ensures Tries(states[k], states[k + 1], who[k], i)
  {
    hide Inv, Next, SlotLaw, NodeOk, RecOk, LinkedOk, ChainOk, ThreadOk, ListOk, Tries;
    StepOf(states, who, how, k);
    InvAt(states[k], 0, 0, 0, 0);
    SlotsCleared(states, who, how, k, i);
    ClaimStep(states[k], who[k], how[k], i);
  }

  lemma ClaimStep(s: State, t: Tid, c: Choice, i: nat)
    requires Enabled(s, t, c) && t in s.threads && s.threads[t] == Claim(i) && SlotLaw(s, i) && SlotsOk(s)
    ensures Tries(s, Next(s, t, c), t, i)
  {
  }
}
