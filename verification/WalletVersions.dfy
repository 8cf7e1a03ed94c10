/** Charges and payments under version checks. Each transaction reads a wallet, decides and
    works out an absolute balance from what it read, and later writes it on the condition that
    the version has not moved; any number of transactions run at once and any of them may be
    rolled back. What is committed is nevertheless what the charges and payments, run one at a
    time as relative changes in version order, would give. */
module WalletVersions {
  import opened Domain

  datatype Work = Pay(userId: nat, amount: nat) | TopUp(userId: nat, amount: nat)

  /** `updated`: the conditional update has matched and the row is locked until the end. */
  datatype Tx = Tx(work: Work, seen: Wallet, updated: bool)
  datatype Commitment = Commitment(work: Work, version: nat)

  /** `db` holds the committed wallets and point rows. */
  datatype State = State(db: Db, holder: map<nat, nat>, txs: map<nat, Tx>, committed: seq<Commitment>)

  datatype Step =
    | Read(tx: nat, work: Work)
    | Update(tx: nat)
    | Commit(tx: nat)
    | Rollback(tx: nat)

  // --------------------------------------------------------------------- the serial form

  function Serial(db: Db, work: Work): Result<Db> {
    match work
    case Pay(userId, amount) => PayFor(db, userId, amount)
    case TopUp(userId, amount) => ChargeTx(db, userId, amount)
  }

  /** One at a time, each at the version it has read. */
  function Replay(db: Db, commits: seq<Commitment>): Result<Db> {
    if commits == [] then Ok(db)
    else
      var before :- Replay(db, commits[..|commits| - 1]);
      var c := commits[|commits| - 1];
      if c.work.userId in before.wallets && before.wallets[c.work.userId].version == c.version
      then Serial(before, c.work)
      else Err(Conflict)
  }

  // ---------------------------------------------------------------- the interleaved form

  /** `payable`: asked of the balance read, not of the balance at the time of the write. */
  predicate Payable(w: Wallet, work: Work) {
    work.Pay? ==> w.totalPoint >= work.amount
  }

  /** The absolute balance written, and the next version. */
  function Written(tx: Tx): Wallet {
    Wallet(if tx.work.Pay? then tx.seen.totalPoint - tx.work.amount else tx.seen.totalPoint + tx.work.amount,
           tx.seen.version + 1)
  }

  function PointOf(work: Work): Point {
    match work
    case Pay(userId, amount) => Point(userId, -(amount as int), Use)
    case TopUp(userId, amount) => Point(userId, amount, Charge)
  }

  predicate Enabled(s: State, step: Step) {
    match step
    case Read(t, work) => t !in s.txs && work.userId in s.db.wallets && Payable(s.db.wallets[work.userId], work)
    case Update(t) => t in s.txs && !s.txs[t].updated && s.txs[t].work.userId !in s.holder
    case Commit(t) => t in s.txs && s.txs[t].updated
    case Rollback(t) => t in s.txs
  }

  function End(s: State, t: nat): State {
    s.(holder := map u | u in s.holder && s.holder[u] != t :: s.holder[u], txs := s.txs - {t})
  }

  function Apply(s: State, step: Step): State
    requires Enabled(s, step)
  {
    match step
    case Read(t, work) => s.(txs := s.txs[t := Tx(work, s.db.wallets[work.userId], false)])
    case Update(t) =>
      var u := s.txs[t].work.userId;
      if u in s.db.wallets && s.db.wallets[u].version == s.txs[t].seen.version
      then s.(holder := s.holder[u := t], txs := s.txs[t := s.txs[t].(updated := true)])
      else End(s, t)
    case Commit(t) =>
      var tx := s.txs[t];
      End(s.(db := s.db.(wallets := s.db.wallets[tx.work.userId := Written(tx)],
                         points := s.db.points + [PointOf(tx.work)]),
             committed := s.committed + [Commitment(tx.work, tx.seen.version)]), t)
    case Rollback(t) => End(s, t)
  }

  // ----------------------------------------------------------------------- the invariant

  /** An equal version means an unchanged wallet. */
  predicate TxInv(s: State, t: nat) {
    t in s.txs ==>
      var tx := s.txs[t];
      var u := tx.work.userId;
      && u in s.db.wallets && Payable(tx.seen, tx.work)
      && tx.seen.version <= s.db.wallets[u].version
      && (tx.seen.version == s.db.wallets[u].version ==> tx.seen == s.db.wallets[u])
      && (tx.updated ==> u in s.holder && s.holder[u] == t && tx.seen == s.db.wallets[u])
  }

  ghost predicate Inv(s: State) {
    && (forall t: nat :: TxInv(s, t))
    && (forall u | u in s.holder ::
          s.holder[u] in s.txs && s.txs[s.holder[u]].updated && s.txs[s.holder[u]].work.userId == u)
    && (forall u | u in s.db.wallets :: s.db.wallets[u].totalPoint >= 0)
  }

  lemma StepInv(s: State, step: Step)
    requires Inv(s) && Enabled(s, step)
    ensures Inv(Apply(s, step))
  {
    assert TxInv(s, step.tx);
    forall t: nat ensures TxInv(Apply(s, step), t) {
      assert TxInv(s, t);
    }
  }

  /** A commit of an absolute balance is the relative change of its work at the version read;
      in particular a payment still finds the points it needs. */
  lemma CommitIsSerial(s: State, t: nat)
    requires Inv(s) && Enabled(s, Commit(t))
    ensures var (db, tx) := (s.db, s.txs[t]);
            && tx.work.userId in db.wallets && db.wallets[tx.work.userId].version == tx.seen.version
            && Serial(db, tx.work) == Ok(Apply(s, Commit(t)).db)
  {
    assert TxInv(s, t);
  }

  // -------------------------------------------------------------------------------- runs

  predicate Legal(s: State, steps: seq<Step>)
    decreases |steps|
  {
    steps == [] || (Enabled(s, steps[0]) && Legal(Apply(s, steps[0]), steps[1..]))
  }

  function Exec(s: State, steps: seq<Step>): State
    requires Legal(s, steps)
    decreases |steps|
  {
    if steps == [] then s else Exec(Apply(s, steps[0]), steps[1..])
  }

  predicate Initial(s: State) {
    && s.holder == map[] && s.txs == map[] && s.committed == []
    && forall u | u in s.db.wallets :: s.db.wallets[u].totalPoint >= 0
  }

  lemma {:induction false} RunIsSerial(db: Db, s: State, steps: seq<Step>)
    requires Inv(s) && Legal(s, steps) && Replay(db, s.committed) == Ok(s.db)
    ensures Inv(Exec(s, steps)) && Replay(db, Exec(s, steps).committed) == Ok(Exec(s, steps).db)
    decreases |steps|
  {
    if steps != [] {
      var step := steps[0];
      StepInv(s, step);
      if step.Commit? {
        CommitIsSerial(s, step.tx);
        var c := Commitment(s.txs[step.tx].work, s.txs[step.tx].seen.version);
        assert (s.committed + [c])[..|s.committed|] == s.committed;
      }
      RunIsSerial(db, Apply(s, step), steps[1..]);
    }
  }

  /** Whatever the interleaving, wallets and point rows are those of running the committed
      charges and payments serially, each at the version it had read; every one of them
      succeeds there, and no balance is ever negative. */
  lemma InterleavingIsSerial(s: State, steps: seq<Step>)
    requires Initial(s) && Legal(s, steps)
    ensures Replay(s.db, Exec(s, steps).committed) == Ok(Exec(s, steps).db)
    ensures forall u | u in Exec(s, steps).db.wallets :: Exec(s, steps).db.wallets[u].totalPoint >= 0
  {
    RunIsSerial(s.db, s, steps);
  }

  function CommitsOf(commits: seq<Commitment>, u: nat): nat {
    if commits == [] then 0
    else CommitsOf(commits[..|commits| - 1], u) + (if commits[|commits| - 1].work.userId == u then 1 else 0)
  }

  /** The order of commits is the order of versions: the commit at place `i` found its wallet
      as many versions on as commits of that wallet stood before it. */
  lemma {:induction false} VersionOrder(db: Db, commits: seq<Commitment>, u: nat)
    requires Replay(db, commits).Ok? && u in db.wallets
    ensures u in Replay(db, commits).value.wallets
    ensures Replay(db, commits).value.wallets[u].version == db.wallets[u].version + CommitsOf(commits, u)
    ensures forall i | 0 <= i < |commits| && commits[i].work.userId == u ::
              commits[i].version == db.wallets[u].version + CommitsOf(commits[..i], u)
  {
    if commits != [] {
      var front := commits[..|commits| - 1];
      VersionOrder(db, front, u);
      forall i | 0 <= i < |commits| && commits[i].work.userId == u
        ensures commits[i].version == db.wallets[u].version + CommitsOf(commits[..i], u)
      {
        if i < |front| { assert front[i] == commits[i] && front[..i] == commits[..i]; }
      }
    }
  }
}
