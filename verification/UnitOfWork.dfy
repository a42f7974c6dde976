/** `InMemoryUnitOfWork` of `patterns/04_persistence/unit_of_work.go`.

    The transaction callback is any strategy: what it does next may depend on every answer it has
    had. It is followed for `fuel` calls; one that has not come to an end by then is still running.
    Transactions run one after another. */
module UnitOfWork {
  import opened Common

  datatype Wallet = Wallet(id: string, balance: int)

  datatype LedgerEntry = LedgerEntry(id: string, walletId: string, amount: int, reference: string)

  /** What the callback can ask of its `TxScope`; `None` is a nil pointer. */
  datatype Call =
    | GetWallet(id: string)
    | UpdateWallet(w: Option<Wallet>)
    | CreateLedgerEntry(entry: Option<LedgerEntry>)

  datatype Answer = Found(wallet: Wallet) | NotFound | Accepted | Invalid

  datatype Move = Do(call: Call) | Finish(err: Option<string>) | Panic

  datatype Exchange = Exchange(call: Call, answer: Answer)

  type Strategy = seq<Exchange> -> Move

  datatype Ending = Running | Finished(err: Option<string>) | Panicked

  datatype Store = Store(wallets: map<string, Wallet>, ledgers: seq<LedgerEntry>)

  datatype Session = Session(staged: map<string, Wallet>, entries: seq<LedgerEntry>)

  datatype Outcome = StillRunning | Committed | RolledBack(err: string) | Aborted

  // ---- The staged transaction -----------------------------------------------------------------

  predicate ValidWallet(w: Option<Wallet>) {
    w.Some? && w.value.id != ""
  }

  /** A call on the session of a transaction over `base`. */
  function OnSession(base: Store, t: Session, c: Call): (Session, Answer) {
    match c
    case GetWallet(id) =>
      if id in t.staged then (t, Found(t.staged[id]))
      else if id in base.wallets then (t.(staged := t.staged[id := base.wallets[id]]), Found(base.wallets[id]))
      else (t, NotFound)
    case UpdateWallet(w) =>
      if ValidWallet(w) then (t.(staged := t.staged[w.value.id := w.value]), Accepted) else (t, Invalid)
    case CreateLedgerEntry(entry) =>
      if entry.Some? then (t.(entries := t.entries + [entry.value]), Accepted) else (t, Invalid)
  }

  function Staged(base: Store, t: Session, next: Strategy, seen: seq<Exchange>, fuel: nat)
    : (Session, Ending, seq<Exchange>)
    decreases fuel
  {
    match next(seen)
    case Finish(err) => (t, Finished(err), seen)
    case Panic => (t, Panicked, seen)
    case Do(c) =>
      if fuel == 0 then (t, Running, seen)
      else
        var (t', a) := OnSession(base, t, c);
        Staged(base, t', next, seen + [Exchange(c, a)], fuel - 1)
  }

  function Commit(base: Store, t: Session): Store {
    Store(base.wallets + t.staged, base.ledgers + t.entries)
  }

  function Transact(base: Store, next: Strategy, fuel: nat): (Store, Outcome) {
    var (t, ending, _) := Staged(base, Session(map[], []), next, [], fuel);
    match ending
    case Running => (base, StillRunning)
    case Finished(None) => (Commit(base, t), Committed)
    case Finished(Some(err)) => (base, RolledBack(err))
    case Panicked => (base, Aborted)
  }

  // ---- The same callback, working on the store itself -----------------------------------------

  function OnStore(s: Store, c: Call): (Store, Answer) {
    match c
    case GetWallet(id) => (s, if id in s.wallets then Found(s.wallets[id]) else NotFound)
    case UpdateWallet(w) =>
      if ValidWallet(w) then (s.(wallets := s.wallets[w.value.id := w.value]), Accepted) else (s, Invalid)
    case CreateLedgerEntry(entry) =>
      if entry.Some? then (s.(ledgers := s.ledgers + [entry.value]), Accepted) else (s, Invalid)
  }

  function Direct(s: Store, next: Strategy, seen: seq<Exchange>, fuel: nat): (Store, Ending, seq<Exchange>)
    decreases fuel
  {
    match next(seen)
    case Finish(err) => (s, Finished(err), seen)
    case Panic => (s, Panicked, seen)
    case Do(c) =>
      if fuel == 0 then (s, Running, seen)
      else
        var (s', a) := OnStore(s, c);
        Direct(s', next, seen + [Exchange(c, a)], fuel - 1)
  }

  /** One call on the session and the same call on the store that would be committed. */
  lemma CallAgrees(base: Store, t: Session, c: Call)
    ensures OnSession(base, t, c).1 == OnStore(Commit(base, t), c).1
    ensures Commit(base, OnSession(base, t, c).0) == OnStore(Commit(base, t), c).0
  {
    match c
    case GetWallet(id) =>
      if id !in t.staged && id in base.wallets {
        assert base.wallets + t.staged[id := base.wallets[id]] == base.wallets + t.staged;
      }
    case UpdateWallet(w) =>
      if ValidWallet(w) {
        assert base.wallets + t.staged[w.value.id := w.value] == (base.wallets + t.staged)[w.value.id := w.value];
      }
    case CreateLedgerEntry(entry) =>
      if entry.Some? {
        assert base.ledgers + (t.entries + [entry.value]) == base.ledgers + t.entries + [entry.value];
      }
  }

  lemma {:induction false} StagedAgrees(base: Store, t: Session, next: Strategy, seen: seq<Exchange>, fuel: nat)
    ensures var (t', ending, seen') := Staged(base, t, next, seen, fuel);
      Direct(Commit(base, t), next, seen, fuel) == (Commit(base, t'), ending, seen')
    decreases fuel
  {
    if fuel > 0 && next(seen).Do? {
      var c := next(seen).call;
      CallAgrees(base, t, c);
      var (t', a) := OnSession(base, t, c);
      StagedAgrees(base, t', next, seen + [Exchange(c, a)], fuel - 1);
    }
  }

  /** For any callback, a transaction that succeeds leaves the store as if the callback had worked on
      it directly, having got the same answers; one that fails or panics leaves it untouched. */
  lemma AllOrNothing(base: Store, next: Strategy, fuel: nat)
    ensures var (s, ending, seen) := Direct(base, next, [], fuel);
      && Staged(base, Session(map[], []), next, [], fuel).2 == seen
      && Transact(base, next, fuel) == match ending
         case Running => (base, StillRunning)
         case Finished(None) => (s, Committed)
         case Finished(Some(err)) => (base, RolledBack(err))
         case Panicked => (base, Aborted)
  {
    assert Commit(base, Session(map[], [])) == base;
    StagedAgrees(base, Session(map[], []), next, [], fuel);
  }

  // ---- What a transaction reads and writes, told by its exchanges -----------------------------

  /** The wallet that was last accepted for `id`, or else the one in the store. */
  function Current(base: Store, seen: seq<Exchange>, id: string): Option<Wallet>
    decreases |seen|
  {
    if seen == [] then (if id in base.wallets then Some(base.wallets[id]) else None)
    else
      var x := seen[|seen| - 1];
      if x.call.UpdateWallet? && x.answer.Accepted? && x.call.w.Some? && x.call.w.value.id == id then x.call.w
      else Current(base, seen[..|seen| - 1], id)
  }

  /** The ledger entries accepted, in order. */
  function Posted(seen: seq<Exchange>): seq<LedgerEntry>
    decreases |seen|
  {
    if seen == [] then []
    else
      var x := seen[|seen| - 1];
      Posted(seen[..|seen| - 1])
        + if x.call.CreateLedgerEntry? && x.call.entry.Some? then [x.call.entry.value] else []
  }

  function AsAnswer(w: Option<Wallet>): Answer {
    if w.Some? then Found(w.value) else NotFound
  }

  ghost predicate ReadsOwnWrites(base: Store, seen: seq<Exchange>) {
    forall i :: 0 <= i < |seen| && seen[i].call.GetWallet? ==>
      seen[i].answer == AsAnswer(Current(base, seen[..i], seen[i].call.id))
  }

  /** What the session and the store say to a write: a wallet is refused if it is nil or has no id, a
      ledger entry if it is nil, and nothing else is. */
  predicate WriteAnswered(x: Exchange) {
    match x.call
    case GetWallet(_) => true
    case UpdateWallet(None) => x.answer == Invalid
    case UpdateWallet(Some(w)) => x.answer == if |w.id| == 0 then Invalid else Accepted
    case CreateLedgerEntry(None) => x.answer == Invalid
    case CreateLedgerEntry(Some(_)) => x.answer == Accepted
  }

  ghost predicate WritesAnswered(seen: seq<Exchange>) {
    forall i :: 0 <= i < |seen| ==> WriteAnswered(seen[i])
  }

  lemma {:induction false} DirectAnswersWrites(s: Store, next: Strategy, seen: seq<Exchange>, fuel: nat)
    requires WritesAnswered(seen)
    ensures WritesAnswered(Direct(s, next, seen, fuel).2)
    decreases fuel
  {
    if fuel > 0 && next(seen).Do? {
      var c := next(seen).call;
      var (s', a) := OnStore(s, c);
      DirectAnswersWrites(s', next, seen + [Exchange(c, a)], fuel - 1);
    }
  }

  /** In every transaction a write is accepted exactly when the code accepts it. */
  lemma WritesAreAnswered(base: Store, next: Strategy, fuel: nat)
    ensures WritesAnswered(Staged(base, Session(map[], []), next, [], fuel).2)
  {
    AllOrNothing(base, next, fuel);
    DirectAnswersWrites(base, next, [], fuel);
  }

  ghost predicate StoreTells(base: Store, s: Store, seen: seq<Exchange>) {
    && (forall id :: Current(base, seen, id) == if id in s.wallets then Some(s.wallets[id]) else None)
    && s.ledgers == base.ledgers + Posted(seen)
  }

  lemma ExchangeTells(base: Store, s: Store, seen: seq<Exchange>, c: Call)
    requires StoreTells(base, s, seen) && ReadsOwnWrites(base, seen)
    ensures var (s', a) := OnStore(s, c);
      StoreTells(base, s', seen + [Exchange(c, a)]) && ReadsOwnWrites(base, seen + [Exchange(c, a)])
  {
    var (s', a) := OnStore(s, c);
    var later := seen + [Exchange(c, a)];
    assert later[..|later| - 1] == seen;
    forall i | 0 <= i < |later| && later[i].call.GetWallet?
      ensures later[i].answer == AsAnswer(Current(base, later[..i], later[i].call.id))
    {
      assert later[..i] == if i < |seen| then seen[..i] else seen;
    }
    assert s'.ledgers == base.ledgers + Posted(later);
  }

  lemma {:induction false} DirectTells(base: Store, s: Store, next: Strategy, seen: seq<Exchange>, fuel: nat)
    requires StoreTells(base, s, seen) && ReadsOwnWrites(base, seen)
    ensures var (s', _, seen') := Direct(s, next, seen, fuel);
      StoreTells(base, s', seen') && ReadsOwnWrites(base, seen')
    decreases fuel
  {
    if fuel > 0 && next(seen).Do? {
      var c := next(seen).call;
      ExchangeTells(base, s, seen, c);
      var (s', a) := OnStore(s, c);
      DirectTells(base, s', next, seen + [Exchange(c, a)], fuel - 1);
    }
  }

  /** Every read inside a transaction sees the latest write of that transaction, and a commit leaves
      for each wallet the latest write and appends the posted entries. */
  lemma ReadsAndCommit(base: Store, next: Strategy, fuel: nat)
    ensures var seen := Staged(base, Session(map[], []), next, [], fuel).2;
      && ReadsOwnWrites(base, seen)
      && (Transact(base, next, fuel).1.Committed? ==> StoreTells(base, Transact(base, next, fuel).0, seen))
  {
    AllOrNothing(base, next, fuel);
    assert base.ledgers + Posted([]) == base.ledgers;
    DirectTells(base, base, next, [], fuel);
  }

  // ---- The code -------------------------------------------------------------------------------

  class WalletRecord {
    var id: string
    var balance: int

    constructor (id: string, balance: int)
      ensures View() == Wallet(id, balance)
    {
      this.id, this.balance := id, balance;
    }

    ghost function View(): Wallet
      reads this
    {
      Wallet(id, balance)
    }
  }

  ghost function Values(m: map<string, WalletRecord>): map<string, Wallet>
    reads m.Values
  {
    map k | k in m :: m[k].View()
  }

  class TxSession {
    const parent: InMemoryUnitOfWork
    var stagedWallets: map<string, WalletRecord>
    var stagedLedgers: seq<LedgerEntry>

    constructor (parent: InMemoryUnitOfWork)
      ensures this.parent == parent && stagedWallets == map[] && stagedLedgers == []
    {
      this.parent, stagedWallets, stagedLedgers := parent, map[], [];
    }

    ghost function View(): Session
      reads this, stagedWallets.Values
    {
      Session(Values(stagedWallets), stagedLedgers)
    }

    /** The caller gets a copy of its own. */
    method GetWallet(id: string) returns (w: WalletRecord?)
      modifies this
      ensures var (t, a) := OnSession(old(parent.View()), old(View()), Call.GetWallet(id));
        View() == t && (if w == null then a.NotFound? else a == Found(w.View()))
      ensures w != null ==> fresh(w) && w !in stagedWallets.Values
      ensures forall o :: o in stagedWallets.Values ==> o in old(stagedWallets.Values) || fresh(o)
    {
      if id in stagedWallets {
        var mine := stagedWallets[id];
        w := new WalletRecord(mine.id, mine.balance);
        return;
      }
      if id !in parent.wallets {
        return null;
      }
      var theirs := parent.wallets[id];
      var staged := new WalletRecord(theirs.id, theirs.balance);
      stagedWallets := stagedWallets[id := staged];
      w := new WalletRecord(staged.id, staged.balance);
    }

    /** What is staged is a copy as well: the caller may go on changing `w`. */
    method UpdateWallet(w: WalletRecord?) returns (ok: bool)
      modifies this
      ensures var passed := if w == null then None else Some(w.View());
        var (t, a) := OnSession(old(parent.View()), old(View()), Call.UpdateWallet(passed));
        View() == t && a == if ok then Accepted else Invalid
      ensures ok <==> w != null && |w.id| > 0
      ensures ok ==> w.id in stagedWallets && stagedWallets[w.id].View() == w.View()
      ensures forall o :: o in stagedWallets.Values ==> o in old(stagedWallets.Values) || fresh(o)
    {
      if w == null || w.id == "" {
        return false;
      }
      var copied := new WalletRecord(w.id, w.balance);
      stagedWallets := stagedWallets[w.id := copied];
      return true;
    }

    method CreateLedgerEntry(entry: Option<LedgerEntry>) returns (ok: bool)
      modifies this
      ensures var (t, a) := OnSession(old(parent.View()), old(View()), Call.CreateLedgerEntry(entry));
        View() == t && a == if ok then Accepted else Invalid
      ensures ok <==> entry.Some?
      ensures stagedLedgers == if ok then old(stagedLedgers) + [entry.value] else old(stagedLedgers)
      ensures stagedWallets == old(stagedWallets)
    {
      if entry == None {
        return false;
      }
      stagedLedgers := stagedLedgers + [entry.value];
      return true;
    }
  }

  class InMemoryUnitOfWork {
    var wallets: map<string, WalletRecord>
    var ledgers: seq<LedgerEntry>

    constructor ()
      ensures View() == Store(map[], [])
    {
      wallets, ledgers := map[], [];
    }

    ghost function View(): Store
      reads this, wallets.Values
    {
      Store(Values(wallets), ledgers)
    }

    /** Runs the callback on a new session, then commits or discards it. */
    method ExecuteTx(next: Strategy, fuel: nat) returns (r: Outcome)
      modifies this
      ensures (View(), r) == Transact(old(View()), next, fuel)
    {
      var session := new TxSession(this);
      assert session.View() == Session(map[], []);
      var ending := Follow(session, next, fuel);
      match ending
      case Running => return StillRunning;
      case Panicked => return Aborted;
      case Finished(Some(err)) => return RolledBack(err);
      case Finished(None) =>
        Apply(session);
        return Committed;
    }

    method Follow(session: TxSession, next: Strategy, fuel: nat) returns (ending: Ending)
      requires session.parent == this
      modifies session
      ensures Staged(View(), old(session.View()), next, [], fuel).0 == session.View()
      ensures Staged(View(), old(session.View()), next, [], fuel).1 == ending
    {
      var seen: seq<Exchange> := [];
      var left := fuel;
      var move := next(seen);
      while move.Do? && left > 0
        invariant move == next(seen)
        invariant Staged(View(), old(session.View()), next, [], fuel)
               == Staged(View(), session.View(), next, seen, left)
        decreases left
      {
        var a := Perform(session, move.call);
        seen := seen + [Exchange(move.call, a)];
        left := left - 1;
        move := next(seen);
      }
      ending := match move case Do(_) => Running case Panic => Panicked case Finish(err) => Finished(err);
    }

    method Perform(session: TxSession, c: Call) returns (a: Answer)
      requires session.parent == this
      modifies session
      ensures (session.View(), a) == OnSession(old(View()), old(session.View()), c)
      ensures forall o :: o in session.stagedWallets.Values ==> o in old(session.stagedWallets.Values) || fresh(o)
    {
      match c
      case GetWallet(id) =>
        var w := session.GetWallet(id);
        a := if w == null then NotFound else Found(Wallet(w.id, w.balance));
      case UpdateWallet(w) =>
        var passed: WalletRecord? := null;
        if w.Some? {
          passed := new WalletRecord(w.value.id, w.value.balance);
        }
        var ok := session.UpdateWallet(passed);
        a := if ok then Accepted else Invalid;
      case CreateLedgerEntry(entry) =>
        var ok := session.CreateLedgerEntry(entry);
        a := if ok then Accepted else Invalid;
    }

    /** The commit. */
    method Apply(session: TxSession)
      requires session.parent == this
      modifies this
      ensures View() == Commit(old(View()), session.View())
    {
      ApplyWallets(session.stagedWallets);
      ledgers := ledgers + session.stagedLedgers;
      ValuesOfSum(old(wallets), session.stagedWallets);
    }

    method ApplyWallets(staged: map<string, WalletRecord>)
      modifies this`wallets
      ensures wallets == old(wallets) + staged
    {
      var keys := staged.Keys;
      while keys != {}
        invariant keys <= staged.Keys
        invariant MergedBut(old(wallets), staged, keys, wallets)
        decreases |keys|
      {
        var k :| k in keys;
        MergeOne(old(wallets), staged, keys, wallets, k);
        wallets := wallets[k := staged[k]];
        keys := keys - {k};
      }
      MergedAll(old(wallets), staged, wallets);
    }
  }

  /** `m` is `base` with the staged wallets put in, except for those of `keys`. */
  ghost predicate MergedBut(base: map<string, WalletRecord>, staged: map<string, WalletRecord>, keys: set<string>,
                            m: map<string, WalletRecord>)
  {
    && m.Keys == base.Keys + (staged.Keys - keys)
    && (forall k :: k in m.Keys ==> m[k] == if k in staged.Keys - keys then staged[k] else base[k])
  }

  lemma MergeOne(base: map<string, WalletRecord>, staged: map<string, WalletRecord>, keys: set<string>,
                 m: map<string, WalletRecord>, k: string)
    requires MergedBut(base, staged, keys, m) && k in keys && k in staged
    ensures MergedBut(base, staged, keys - {k}, m[k := staged[k]])
  {
    assert staged.Keys - (keys - {k}) == staged.Keys - keys + {k};
  }

  lemma MergedAll(base: map<string, WalletRecord>, staged: map<string, WalletRecord>, m: map<string, WalletRecord>)
    requires MergedBut(base, staged, {}, m)
    ensures m == base + staged
  {
  }

  lemma ValuesOfSum(base: map<string, WalletRecord>, staged: map<string, WalletRecord>)
    ensures Values(base + staged) == Values(base) + Values(staged)
  {
  }
}
