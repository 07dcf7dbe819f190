/**
  * Entering the competition (web/lib/competition-server.ts:60-122) as a protocol on a shared store: runs for different
  * wallets interleave between any two store calls, and a run may stop anywhere. Keys are claimed with "set if absent".
  */
module EntryProtocol {
  import opened Basics

  type Wallet = string

  /** The two kinds of claim. A handle's key is its lower case (packages/core/src/competition.ts:275). */
  datatype Key = HandleKey(handle: string) | EmailKey(email: string)

  datatype Record = Record(wallet: Wallet, handle: string, email: string, verified: bool)

  function LowerChar(c: char): char {
    if 'A' <= c <= 'Z' then (c as int - 'A' as int + 'a' as int) as char else c
  }

  function Lower(s: string): string {
    seq(|s|, i requires 0 <= i < |s| => LowerChar(s[i]))
  }

  function HandleKeyOf(handle: string): Key {
    HandleKey(Lower(handle))
  }

  /** Two letters that are one but for the case of a Latin letter. */
  predicate SameLetter(c: char, d: char) {
    c == d || ('A' <= c <= 'Z' && d as int == c as int + 32) || ('A' <= d <= 'Z' && c as int == d as int + 32)
  }

  /** Two handles that only differ in case. */
  predicate SameHandle(a: string, b: string) {
    |a| == |b| && forall i :: 0 <= i < |a| ==> SameLetter(a[i], b[i])
  }

  /** Two handles share a key exactly when they only differ in case. */
  lemma HandleKeysAgree(a: string, b: string)
    ensures HandleKeyOf(a) == HandleKeyOf(b) <==> SameHandle(a, b)
  {
    if Lower(a) == Lower(b) {
      forall i | 0 <= i < |a| ensures SameLetter(a[i], b[i]) {
        assert Lower(a)[i] == Lower(b)[i];
      }
    }
    if SameHandle(a, b) {
      forall i | 0 <= i < |a| ensures LowerChar(a[i]) == LowerChar(b[i]) {
        assert SameLetter(a[i], b[i]);
      }
      assert Lower(a) == Lower(b);
    }
  }

  /** Where a run is: each phase is one store call away from the next. */
  datatype Phase =
    | Start
    | ClaimHandle | ReadHandle
    | ClaimEmail | ReadEmail
    | Place
    | Release
    | WriteRecord
    | ReadStale(pending: set<Key>, mine: set<Key>)
    | DropStale(drop: set<Key>)
    | Done(ok: bool)

  /** One run of `confirmEntry`: its arguments, what it read and claimed, and (for the proofs) what the wallet held before. */
  datatype Run = Run(wallet: Wallet, handle: string, email: string, existing: Option<Record>, claimed: set<Key>, held: set<Key>, phase: Phase)

  datatype Sys = Sys(claims: map<Key, Wallet>, records: map<Wallet, Record>, entrants: set<Wallet>, runs: map<nat, Run>)

  function RecordOf(s: Sys, w: Wallet): Option<Record> {
    if w in s.records then Some(s.records[w]) else None
  }

  predicate NotVerified(record: Option<Record>) {
    match record
    case None => true
    case Some(r) => !r.verified
  }

  predicate Has(claims: map<Key, Wallet>, k: Key, w: Wallet) {
    k in claims && claims[k] == w
  }

  function Held(claims: map<Key, Wallet>, w: Wallet): set<Key> {
    set k | k in claims && claims[k] == w
  }

  /** The wallet's keys are exactly these. */
  ghost predicate HoldsExactly(claims: map<Key, Wallet>, w: Wallet, keys: set<Key>) {
    forall k :: Has(claims, k, w) <==> k in keys
  }

  function HandleOf(r: Run): Key {
    HandleKeyOf(r.handle)
  }

  function EmailOf(r: Run): Key {
    EmailKey(r.email)
  }

  /** Keys of a replaced pending record that the new entry no longer uses. */
  function StaleKeys(existing: Option<Record>, handle: string, email: string): set<Key> {
    match existing
    case None => {}
    case Some(prior) =>
      (if Lower(prior.handle) != Lower(handle) then {HandleKeyOf(prior.handle)} else {}) +
      (if prior.email != email then {EmailKey(prior.email)} else {})
  }

  function Stale(r: Run): set<Key> {
    StaleKeys(r.existing, r.handle, r.email)
  }

  // ---- One store call ----

  function Put(s: Sys, pid: nat, r: Run): Sys {
    s.(runs := s.runs[pid := r])
  }

  /** "Set if absent" on a claim key; a run that loses the race goes on to read who has it. */
  function Claim(s: Sys, pid: nat, r: Run, k: Key, won: Phase, lost: Phase): Sys {
    if k in s.claims then Put(s, pid, r.(phase := lost))
    else Put(s.(claims := s.claims[k := r.wallet]), pid, r.(claimed := r.claimed + {k}, phase := won))
  }

  /** The place script, in one step: true when the wallet holds a place after it. */
  function TakePlace(entrants: set<Wallet>, w: Wallet, cap: Option<nat>): (set<Wallet>, bool) {
    if w in entrants then (entrants, true)
    else if cap.Some? && |entrants| >= cap.value then (entrants, false)
    else (entrants + {w}, true)
  }

  function Advance(s: Sys, pid: nat, cap: Option<nat>): Sys
    requires pid in s.runs
  {
    var r := s.runs[pid];
    match r.phase
    case Start =>
      var existing := RecordOf(s, r.wallet);
      if !NotVerified(existing) then Put(s, pid, r.(phase := Done(false)))
      else Put(s, pid, r.(existing := existing, phase := ClaimHandle))
    case ClaimHandle => Claim(s, pid, r, HandleOf(r), ClaimEmail, ReadHandle)
    case ReadHandle => Put(s, pid, r.(phase := if Has(s.claims, HandleOf(r), r.wallet) then ClaimEmail else Done(false)))
    case ClaimEmail => Claim(s, pid, r, EmailOf(r), Place, ReadEmail)
    case ReadEmail => Put(s, pid, r.(phase := if Has(s.claims, EmailOf(r), r.wallet) then Place else Release))
    case Place =>
      var (entrants, placed) := TakePlace(s.entrants, r.wallet, cap);
      Put(s.(entrants := entrants), pid, r.(phase := if placed then WriteRecord else Release))
    case Release => Put(s.(claims := s.claims - r.claimed), pid, r.(phase := Done(false)))
    case WriteRecord =>
      Put(s.(records := s.records[r.wallet := Record(r.wallet, r.handle, r.email, true)]), pid,
          r.(phase := if r.existing.None? then Done(true) else ReadStale(Stale(r), {})))
    case ReadStale(pending, mine) =>
      if pending != {} then s
      else Put(s, pid, r.(phase := if mine == {} then Done(true) else DropStale(mine)))
    case DropStale(drop) => Put(s.(claims := s.claims - drop), pid, r.(phase := Done(true)))
    case Done(_) => s
  }

  /** What can happen next. The reads of a replaced record's two keys come back in either order. */
  datatype Act = Begin(pid: nat, wallet: Wallet, handle: string, email: string) | Go(pid: nat) | ReadKey(pid: nat, key: Key) | Crash(pid: nat)

  function ReadOne(s: Sys, pid: nat, k: Key): Sys
    requires pid in s.runs
  {
    var r := s.runs[pid];
    if !r.phase.ReadStale? || k !in r.phase.pending then s
    else Put(s, pid, r.(phase := ReadStale(r.phase.pending - {k}, if Has(s.claims, k, r.wallet) then r.phase.mine + {k} else r.phase.mine)))
  }

  function Step(s: Sys, act: Act, cap: Option<nat>): Sys {
    match act
    case Begin(pid, w, handle, email) =>
      if pid in s.runs then s else Put(s, pid, Run(w, handle, email, None, {}, Held(s.claims, w), Start))
    case Go(pid) => if pid in s.runs then Advance(s, pid, cap) else s
    case ReadKey(pid, k) => if pid in s.runs then ReadOne(s, pid, k) else s
    case Crash(pid) => s.(runs := s.runs - {pid})
  }

  predicate Active(r: Run) {
    !r.phase.Done?
  }

  /** A wallet starts an entry only when it has none under way. */
  ghost predicate Serial(s: Sys, act: Act) {
    act.Begin? ==> forall pid :: pid in s.runs && Active(s.runs[pid]) ==> s.runs[pid].wallet != act.wallet
  }

  // ---- The invariant ----

  /** A verified record holds a place and both of its keys. */
  predicate Entered(s: Sys, w: Wallet) {
    w in s.records && s.records[w].verified ==>
      && s.records[w].wallet == w
      && w in s.entrants
      && Has(s.claims, HandleKeyOf(s.records[w].handle), w)
      && Has(s.claims, EmailKey(s.records[w].email), w)
  }

  ghost predicate AllEntered(s: Sys) {
    forall w :: Entered(s, w)
  }

  predicate PastHandle(p: Phase) {
    p.ClaimEmail? || p.ReadEmail? || p.Place? || p.Release? || p.WriteRecord?
  }

  /** What a run under way can count on. */
  ghost predicate RunOk(s: Sys, r: Run) {
    match r.phase
    case Done(_) => true
    case ReadStale(pending, mine) =>
      && RecordOf(s, r.wallet) == Some(Record(r.wallet, r.handle, r.email, true))
      && HandleOf(r) !in pending + mine && EmailOf(r) !in pending + mine
      && (forall k :: k in mine ==> Has(s.claims, k, r.wallet))
    case DropStale(drop) =>
      && RecordOf(s, r.wallet) == Some(Record(r.wallet, r.handle, r.email, true))
      && HandleOf(r) !in drop && EmailOf(r) !in drop
      && (forall k :: k in drop ==> Has(s.claims, k, r.wallet))
    case _ =>
      && HoldsExactly(s.claims, r.wallet, r.held + r.claimed) && r.held !! r.claimed
      && (r.phase.Start? ==> r.claimed == {})
      && (r.phase.ClaimHandle? || r.phase.ReadHandle? ==> r.claimed == {})
      && (!r.phase.Start? ==> r.existing == RecordOf(s, r.wallet) && NotVerified(r.existing))
      && (PastHandle(r.phase) ==> Has(s.claims, HandleOf(r), r.wallet))
      && (r.phase.Place? || r.phase.WriteRecord? ==> Has(s.claims, EmailOf(r), r.wallet))
      && (r.phase.WriteRecord? ==> r.wallet in s.entrants)
  }

  ghost predicate OneRunPerWallet(s: Sys) {
    forall p, q :: p in s.runs && q in s.runs && p != q && Active(s.runs[p]) && Active(s.runs[q]) ==> s.runs[p].wallet != s.runs[q].wallet
  }

  ghost predicate Inv(s: Sys, cap: Option<nat>) {
    && (cap.Some? ==> |s.entrants| <= cap.value)
    && (forall w :: Entered(s, w))
    && OneRunPerWallet(s)
    && (forall pid :: pid in s.runs ==> RunOk(s, s.runs[pid]))
  }

  /** Where the protocol starts: pending records from the email-link days, any claims, places within the cap, nobody running. */
  ghost predicate Initial(s: Sys, cap: Option<nat>) {
    && s.runs == map[]
    && (forall w :: w in s.records ==> !s.records[w].verified)
    && (cap.Some? ==> |s.entrants| <= cap.value)
  }

  lemma InitialHolds(s: Sys, cap: Option<nat>)
    requires Initial(s, cap)
    ensures Inv(s, cap)
  {
  }

  // ---- What a step of one wallet does to the others ----

  /** Between two states, another wallet's claims, record and place are as they were. */
  ghost predicate Untouched(s: Sys, t: Sys, w: Wallet) {
    && (forall k :: Has(s.claims, k, w) <==> Has(t.claims, k, w))
    && RecordOf(s, w) == RecordOf(t, w)
    && (w in s.entrants ==> w in t.entrants)
  }

  lemma UntouchedKeeps(s: Sys, t: Sys, r: Run)
    requires Untouched(s, t, r.wallet) && RunOk(s, r)
    ensures RunOk(t, r)
  {
  }

  /** What a run's step relies on: its own promises, its wallet's record, the cap. */
  ghost predicate OwnOk(s: Sys, pid: nat, cap: Option<nat>) {
    pid in s.runs && RunOk(s, s.runs[pid]) && Entered(s, s.runs[pid].wallet) && (cap.Some? ==> |s.entrants| <= cap.value)
  }

  /** Adding a free key, or dropping keys that are one's own, leaves another wallet's claims. */
  lemma ClaimIsOnesOwn(claims: map<Key, Wallet>, k: Key, me: Wallet, w: Wallet)
    requires k !in claims && w != me
    ensures forall x :: Has(claims, x, w) <==> Has(claims[k := me], x, w)
  {
  }

  lemma DropIsOnesOwn(claims: map<Key, Wallet>, drop: set<Key>, me: Wallet, w: Wallet)
    requires (forall k :: k in drop ==> Has(claims, k, me)) && w != me
    ensures forall x :: Has(claims, x, w) <==> Has(claims - drop, x, w)
  {
  }

  lemma ReleaseTouchesOnlyItself(s: Sys, pid: nat, cap: Option<nat>, w: Wallet)
    requires pid in s.runs && s.runs[pid].phase.Release? && RunOk(s, s.runs[pid]) && w != s.runs[pid].wallet
    ensures Untouched(s, Advance(s, pid, cap), w)
  {
    var r := s.runs[pid];
    DropIsOnesOwn(s.claims, r.claimed, r.wallet, w);
  }

  lemma DropTouchesOnlyItself(s: Sys, pid: nat, cap: Option<nat>, w: Wallet)
    requires pid in s.runs && s.runs[pid].phase.DropStale? && RunOk(s, s.runs[pid]) && w != s.runs[pid].wallet
    ensures Untouched(s, Advance(s, pid, cap), w)
  {
    var r := s.runs[pid];
    DropIsOnesOwn(s.claims, r.phase.drop, r.wallet, w);
  }

  lemma OtherStepsTouchOnlyThemselves(s: Sys, pid: nat, cap: Option<nat>, w: Wallet)
    requires pid in s.runs && !s.runs[pid].phase.Release? && !s.runs[pid].phase.DropStale? && w != s.runs[pid].wallet
    ensures Untouched(s, Advance(s, pid, cap), w)
  {
    var r := s.runs[pid];
    if r.phase.ClaimHandle? && HandleOf(r) !in s.claims {
      ClaimIsOnesOwn(s.claims, HandleOf(r), r.wallet, w);
    } else if r.phase.ClaimEmail? && EmailOf(r) !in s.claims {
      ClaimIsOnesOwn(s.claims, EmailOf(r), r.wallet, w);
    }
  }

  lemma AdvanceTouchesOnlyItself(s: Sys, pid: nat, cap: Option<nat>, w: Wallet)
    requires pid in s.runs && RunOk(s, s.runs[pid]) && w != s.runs[pid].wallet
    ensures Untouched(s, Advance(s, pid, cap), w)
  {
    if s.runs[pid].phase.Release? {
      ReleaseTouchesOnlyItself(s, pid, cap, w);
    } else if s.runs[pid].phase.DropStale? {
      DropTouchesOnlyItself(s, pid, cap, w);
    } else {
      OtherStepsTouchOnlyThemselves(s, pid, cap, w);
    }
  }

  /** What a run's own step leaves: the other runs as they were, its own promises kept, its wallet's record honest, the cap kept. */
  ghost predicate OwnRunKept(s: Sys, t: Sys, pid: nat, cap: Option<nat>)
    requires pid in s.runs
  {
    && t.runs.Keys == s.runs.Keys && t.runs[pid].wallet == s.runs[pid].wallet
    && (forall q :: q in s.runs && q != pid ==> t.runs[q] == s.runs[q])
    && RunOk(t, t.runs[pid])
    && Entered(t, s.runs[pid].wallet)
    && (cap.Some? ==> |t.entrants| <= cap.value)
  }

  lemma ClaimingAdds(claims: map<Key, Wallet>, w: Wallet, k: Key, held: set<Key>, claimed: set<Key>)
    requires k !in claims && HoldsExactly(claims, w, held + claimed) && held !! claimed
    ensures HoldsExactly(claims[k := w], w, held + (claimed + {k})) && held !! claimed + {k}
  {
    assert !Has(claims, k, w);
    forall x ensures Has(claims[k := w], x, w) <==> x in held + (claimed + {k}) {
      assert Has(claims, x, w) <==> x in held + claimed;
    }
  }

  /** A record keeps what it has when a key is added. */
  lemma ClaimKeepsEntered(s: Sys, t: Sys, w: Wallet, k: Key, me: Wallet)
    requires Entered(s, w) && k !in s.claims
    requires t.claims == s.claims[k := me] && t.records == s.records && t.entrants == s.entrants
    ensures Entered(t, w)
  {
  }

  lemma WonKeepsOwnRun(s: Sys, pid: nat, cap: Option<nat>, k: Key, won: Phase, lost: Phase)
    requires OwnOk(s, pid, cap) && k !in s.claims
    requires || (s.runs[pid].phase.ClaimHandle? && k == HandleOf(s.runs[pid]) && won == ClaimEmail)
             || (s.runs[pid].phase.ClaimEmail? && k == EmailOf(s.runs[pid]) && won == Phase.Place)
    ensures OwnRunKept(s, Claim(s, pid, s.runs[pid], k, won, lost), pid, cap)
  {
    var r := s.runs[pid];
    var t := Claim(s, pid, r, k, won, lost);
    ClaimingAdds(s.claims, r.wallet, k, r.held, r.claimed);
    ClaimKeepsEntered(s, t, r.wallet, k, r.wallet);
    assert Has(t.claims, k, r.wallet);
  }

  lemma LostKeepsOwnRun(s: Sys, pid: nat, cap: Option<nat>, k: Key, won: Phase, lost: Phase)
    requires OwnOk(s, pid, cap) && k in s.claims
    requires (s.runs[pid].phase.ClaimHandle? && lost == ReadHandle) || (s.runs[pid].phase.ClaimEmail? && lost == ReadEmail)
    ensures OwnRunKept(s, Claim(s, pid, s.runs[pid], k, won, lost), pid, cap)
  {
  }

  lemma ClaimKeepsOwnRun(s: Sys, pid: nat, cap: Option<nat>)
    requires OwnOk(s, pid, cap) && (s.runs[pid].phase.ClaimHandle? || s.runs[pid].phase.ClaimEmail?)
    ensures OwnRunKept(s, Advance(s, pid, cap), pid, cap)
  {
    var r := s.runs[pid];
    var (k, won, lost) := if r.phase.ClaimHandle? then (HandleOf(r), ClaimEmail, ReadHandle) else (EmailOf(r), Phase.Place, ReadEmail);
    assert Advance(s, pid, cap) == Claim(s, pid, r, k, won, lost);
    if k in s.claims {
      LostKeepsOwnRun(s, pid, cap, k, won, lost);
    } else {
      WonKeepsOwnRun(s, pid, cap, k, won, lost);
    }
  }

  lemma PlaceKeepsOwnRun(s: Sys, pid: nat, cap: Option<nat>)
    requires OwnOk(s, pid, cap) && s.runs[pid].phase.Place?
    ensures OwnRunKept(s, Advance(s, pid, cap), pid, cap)
  {
  }

  /** Only the run itself moved on. */
  lemma RephasedKeeps(s: Sys, pid: nat, r: Run, cap: Option<nat>)
    requires OwnOk(s, pid, cap) && r.wallet == s.runs[pid].wallet && RunOk(s, r)
    ensures OwnRunKept(s, Put(s, pid, r), pid, cap)
  {
    UntouchedKeeps(s, Put(s, pid, r), r);
  }

  lemma ReadKeepsOwnRun(s: Sys, pid: nat, cap: Option<nat>)
    requires OwnOk(s, pid, cap)
    requires match s.runs[pid].phase case Start => true case ReadHandle => true case ReadEmail => true case Done(_) => true case _ => false
    ensures OwnRunKept(s, Advance(s, pid, cap), pid, cap)
  {
    var moved := Advance(s, pid, cap).runs[pid];
    assert RunOk(s, moved);
    if !s.runs[pid].phase.Done? {
      assert Advance(s, pid, cap) == Put(s, pid, moved);
      RephasedKeeps(s, pid, moved, cap);
    }
  }

  lemma ReleaseKeepsOwnRun(s: Sys, pid: nat, cap: Option<nat>)
    requires OwnOk(s, pid, cap) && s.runs[pid].phase.Release?
    ensures OwnRunKept(s, Advance(s, pid, cap), pid, cap)
  {
  }

  lemma FinishKeepsOwnRun(s: Sys, pid: nat, cap: Option<nat>)
    requires OwnOk(s, pid, cap)
    requires s.runs[pid].phase.WriteRecord? || s.runs[pid].phase.ReadStale? || s.runs[pid].phase.DropStale?
    ensures OwnRunKept(s, Advance(s, pid, cap), pid, cap)
  {
  }

  lemma AdvanceKeepsOwnRun(s: Sys, pid: nat, cap: Option<nat>)
    requires OwnOk(s, pid, cap)
    ensures OwnRunKept(s, Advance(s, pid, cap), pid, cap)
  {
    var r := s.runs[pid];
    match r.phase
    case ClaimHandle => ClaimKeepsOwnRun(s, pid, cap);
    case ClaimEmail => ClaimKeepsOwnRun(s, pid, cap);
    case Release => ReleaseKeepsOwnRun(s, pid, cap);
    case WriteRecord => FinishKeepsOwnRun(s, pid, cap);
    case ReadStale(_, _) => FinishKeepsOwnRun(s, pid, cap);
    case DropStale(_) => FinishKeepsOwnRun(s, pid, cap);
    case Place => PlaceKeepsOwnRun(s, pid, cap);
    case _ => ReadKeepsOwnRun(s, pid, cap);
  }

  /** One wallet's step changed the state, and everything about the others stood still. */
  ghost predicate OnlyOneMoved(s: Sys, t: Sys, pid: nat, cap: Option<nat>)
    requires pid in s.runs
  {
    OwnRunKept(s, t, pid, cap) && forall w :: w != s.runs[pid].wallet ==> Untouched(s, t, w)
  }

  lemma OthersStandStill(s: Sys, t: Sys, pid: nat, q: nat, cap: Option<nat>)
    requires Inv(s, cap) && pid in s.runs && Active(s.runs[pid]) && OnlyOneMoved(s, t, pid, cap) && q in s.runs
    ensures q in t.runs && RunOk(t, t.runs[q])
  {
    assert RunOk(s, s.runs[q]);
    if q != pid && Active(s.runs[q]) {
      assert Untouched(s, t, s.runs[q].wallet);
      UntouchedKeeps(s, t, s.runs[q]);
    }
  }

  lemma OthersStayEntered(s: Sys, t: Sys, pid: nat, w: Wallet, cap: Option<nat>)
    requires Entered(s, w) && pid in s.runs && OnlyOneMoved(s, t, pid, cap)
    ensures Entered(t, w)
  {
    if w != s.runs[pid].wallet {
      assert Untouched(s, t, w);
    }
  }

  lemma OneMoveKeepsInv(s: Sys, t: Sys, pid: nat, cap: Option<nat>)
    requires Inv(s, cap) && pid in s.runs && Active(s.runs[pid]) && OnlyOneMoved(s, t, pid, cap)
    ensures Inv(t, cap)
  {
    forall q | q in t.runs ensures RunOk(t, t.runs[q]) {
      OthersStandStill(s, t, pid, q, cap);
    }
    forall w ensures Entered(t, w) {
      assert Entered(s, w);
      OthersStayEntered(s, t, pid, w, cap);
    }
    forall p, q | p in t.runs && q in t.runs && p != q && Active(t.runs[p]) && Active(t.runs[q]) ensures t.runs[p].wallet != t.runs[q].wallet {
      assert Active(s.runs[p]) && Active(s.runs[q]);
    }
  }

  lemma AdvanceKeepsInv(s: Sys, pid: nat, cap: Option<nat>)
    requires Inv(s, cap) && pid in s.runs
    ensures Inv(Advance(s, pid, cap), cap)
  {
    if Active(s.runs[pid]) {
      assert RunOk(s, s.runs[pid]) && Entered(s, s.runs[pid].wallet);
      AdvanceKeepsOwnRun(s, pid, cap);
      forall w | w != s.runs[pid].wallet ensures Untouched(s, Advance(s, pid, cap), w) {
        AdvanceTouchesOnlyItself(s, pid, cap, w);
      }
      OneMoveKeepsInv(s, Advance(s, pid, cap), pid, cap);
    }
  }

  lemma ReadOneKeepsInv(s: Sys, pid: nat, k: Key, cap: Option<nat>)
    requires Inv(s, cap) && pid in s.runs
    ensures Inv(ReadOne(s, pid, k), cap)
  {
    var t := ReadOne(s, pid, k);
    assert RunOk(s, s.runs[pid]);
    forall q | q in t.runs ensures RunOk(t, t.runs[q]) {
      if q != pid {
        assert RunOk(s, s.runs[q]);
        UntouchedKeeps(s, t, s.runs[q]);
      }
    }
    forall w ensures Entered(t, w) {
      assert Entered(s, w);
    }
  }

  lemma BeginIsOneRun(s: Sys, act: Act)
    requires act.Begin? && act.pid !in s.runs && OneRunPerWallet(s) && Serial(s, act)
    ensures OneRunPerWallet(Step(s, act, None))
  {
  }

  lemma BeginKeepsInv(s: Sys, act: Act, cap: Option<nat>)
    requires act.Begin? && Inv(s, cap) && Serial(s, act)
    ensures Inv(Step(s, act, cap), cap)
  {
    var t := Step(s, act, cap);
    if act.pid !in s.runs {
      HeldIsTheBeginning(s, act, cap);
      BeginIsOneRun(s, act);
      RunsOnlyKeepsInv(s, t, cap);
    }
  }

  lemma CrashKeepsInv(s: Sys, pid: nat, cap: Option<nat>)
    requires Inv(s, cap)
    ensures Inv(s.(runs := s.runs - {pid}), cap)
  {
    RunsOnlyKeepsInv(s, s.(runs := s.runs - {pid}), cap);
  }

  /** Every step of every wallet keeps the invariant, as long as each wallet's own runs are one at a time. */
  lemma StepKeepsInv(s: Sys, act: Act, cap: Option<nat>)
    requires Inv(s, cap) && Serial(s, act)
    ensures Inv(Step(s, act, cap), cap)
  {
    match act
    case Go(pid) => if pid in s.runs { AdvanceKeepsInv(s, pid, cap); }
    case ReadKey(pid, k) => if pid in s.runs { ReadOneKeepsInv(s, pid, k, cap); }
    case Begin(_, _, _, _) => BeginKeepsInv(s, act, cap);
    case Crash(pid) => CrashKeepsInv(s, pid, cap);
  }

  lemma RunsOnlyKeepsInv(s: Sys, t: Sys, cap: Option<nat>)
    requires Inv(s, cap) && t == s.(runs := t.runs) && OneRunPerWallet(t)
    requires forall q :: q in t.runs && !(q in s.runs && t.runs[q] == s.runs[q]) ==> RunOk(t, t.runs[q])
    ensures Inv(t, cap)
  {
    forall q | q in t.runs ensures RunOk(t, t.runs[q]) {
      if q in s.runs && t.runs[q] == s.runs[q] {
        assert RunOk(s, s.runs[q]);
        UntouchedKeeps(s, t, s.runs[q]);
      }
    }
    forall w ensures Entered(t, w) {
      assert Entered(s, w);
    }
  }

  // ---- Whole histories ----

  function After(s: Sys, acts: seq<Act>, cap: Option<nat>): Sys
    decreases |acts|
  {
    if acts == [] then s else After(Step(s, acts[0], cap), acts[1..], cap)
  }

  ghost predicate SerialHistory(s: Sys, acts: seq<Act>, cap: Option<nat>)
    decreases |acts|
  {
    acts != [] ==> Serial(s, acts[0]) && SerialHistory(Step(s, acts[0], cap), acts[1..], cap)
  }

  lemma {:induction false} InvAlways(s: Sys, acts: seq<Act>, cap: Option<nat>)
    requires Inv(s, cap) && SerialHistory(s, acts, cap)
    ensures Inv(After(s, acts, cap), cap)
    decreases |acts|
  {
    if acts != [] {
      StepKeepsInv(s, acts[0], cap);
      InvAlways(Step(s, acts[0], cap), acts[1..], cap);
    }
  }

  /** No two verified entries have handles that only differ in case, or one email. */
  ghost predicate OneEntryPerHandleAndEmail(s: Sys) {
    forall v, w :: v in s.records && w in s.records && v != w && s.records[v].verified && s.records[w].verified ==>
                     !SameHandle(s.records[v].handle, s.records[w].handle) && s.records[v].email != s.records[w].email
  }

  /** What the store promises in a state that satisfies the invariant. */
  ghost predicate Exclusive(s: Sys, cap: Option<nat>) {
    && OneEntryPerHandleAndEmail(s)
    && (cap.Some? ==> |s.entrants| <= cap.value)
    && (forall w :: w in s.records && s.records[w].verified ==>
                      && w in s.entrants
                      && Has(s.claims, HandleKeyOf(s.records[w].handle), w)
                      && Has(s.claims, EmailKey(s.records[w].email), w))
  }

  lemma EnteredIsExclusive(s: Sys, cap: Option<nat>)
    requires AllEntered(s) && (cap.Some? ==> |s.entrants| <= cap.value)
    ensures Exclusive(s, cap)
  {
    forall v, w | v in s.records && w in s.records && v != w && s.records[v].verified && s.records[w].verified
      ensures !SameHandle(s.records[v].handle, s.records[w].handle) && s.records[v].email != s.records[w].email
    {
      assert Entered(s, v) && Entered(s, w);
      HandleKeysAgree(s.records[v].handle, s.records[w].handle);
    }
    forall w | w in s.records && s.records[w].verified
      ensures w in s.entrants && Has(s.claims, HandleKeyOf(s.records[w].handle), w) && Has(s.claims, EmailKey(s.records[w].email), w)
    {
      assert Entered(s, w);
    }
  }

  /**
    * However the runs of different wallets interleave and wherever they stop: one entry per handle and email, the places
    * never pass the cap, and every verified wallet holds a place and both of its keys.
    */
  lemma EntriesAreExclusive(s: Sys, acts: seq<Act>, cap: Option<nat>)
    requires Initial(s, cap) && SerialHistory(s, acts, cap)
    ensures Exclusive(After(s, acts, cap), cap)
  {
    InitialHolds(s, cap);
    InvAlways(s, acts, cap);
    EnteredIsExclusive(After(s, acts, cap), cap);
  }

  lemma RefusedRunLetsGo(s: Sys, pid: nat, cap: Option<nat>)
    requires pid in s.runs && RunOk(s, s.runs[pid]) && Active(s.runs[pid])
    requires Advance(s, pid, cap).runs[pid].phase == Done(false)
    ensures var r := s.runs[pid]; var t := Advance(s, pid, cap);
                                  && HoldsExactly(t.claims, r.wallet, r.held)
                                  && (forall k :: k in r.claimed ==> !Has(t.claims, k, r.wallet))
  {
    var r, t := s.runs[pid], Advance(s, pid, cap);
    var claims := if r.phase.Release? then s.claims - r.claimed else s.claims;
    assert t.claims == claims && r.held !! r.claimed;
    forall k ensures Has(claims, k, r.wallet) <==> k in r.held {
      assert Has(s.claims, k, r.wallet) <==> k in r.held + r.claimed;
    }
  }

  /** In every history, the step that ends a run in refusal leaves the wallet exactly the keys it held when the run began. */
  lemma RefusalLeavesNothing(s: Sys, acts: seq<Act>, pid: nat, cap: Option<nat>)
    requires Initial(s, cap) && SerialHistory(s, acts, cap)
    requires var t := After(s, acts, cap);
             pid in t.runs && Active(t.runs[pid]) && Advance(t, pid, cap).runs[pid].phase == Done(false)
    ensures var t := After(s, acts, cap);
            var r, claims := t.runs[pid], Advance(t, pid, cap).claims;
            HoldsExactly(claims, r.wallet, r.held) && (forall k :: k in r.claimed ==> !Has(claims, k, r.wallet))
  {
    InitialHolds(s, cap);
    InvAlways(s, acts, cap);
    RefusedRunLetsGo(After(s, acts, cap), pid, cap);
  }

  lemma AdvanceKeepsVerified(s: Sys, pid: nat, cap: Option<nat>, w: Wallet)
    requires pid in s.runs && RunOk(s, s.runs[pid]) && w in s.records && s.records[w].verified
    ensures RecordOf(Advance(s, pid, cap), w) == Some(s.records[w])
  {
    var r := s.runs[pid];
    if r.phase.WriteRecord? {
      assert r.wallet != w;
    } else {
      assert Advance(s, pid, cap).records == s.records;
    }
  }

  /** An entry is final: once verified, a wallet's record never changes. */
  lemma {:induction false} VerifiedStays(s: Sys, acts: seq<Act>, cap: Option<nat>, w: Wallet)
    requires Inv(s, cap) && SerialHistory(s, acts, cap) && w in s.records && s.records[w].verified
    ensures RecordOf(After(s, acts, cap), w) == Some(s.records[w])
    decreases |acts|
  {
    if acts != [] {
      StepKeepsInv(s, acts[0], cap);
      match acts[0] {
        case Go(pid) =>
          if pid in s.runs {
            assert RunOk(s, s.runs[pid]);
            AdvanceKeepsVerified(s, pid, cap, w);
          }
        case _ =>
      }
      VerifiedStays(Step(s, acts[0], cap), acts[1..], cap, w);
    }
  }

  /** What `held` records: the wallet's keys at the step that begins the run. */
  lemma HeldIsTheBeginning(s: Sys, act: Act, cap: Option<nat>)
    requires act.Begin? && act.pid !in s.runs
    ensures HoldsExactly(s.claims, act.wallet, Step(s, act, cap).runs[act.pid].held)
  {
    forall k ensures Has(s.claims, k, act.wallet) <==> k in Held(s.claims, act.wallet) {
    }
  }

  // ---- An entry with nothing in its way ----

  lemma {:induction false} AfterBoth(s: Sys, first: seq<Act>, second: seq<Act>, cap: Option<nat>)
    ensures After(s, first + second, cap) == After(After(s, first, cap), second, cap)
    decreases |first|
  {
    if first == [] {
      assert first + second == second;
    } else {
      assert (first + second)[1..] == first[1..] + second;
      AfterBoth(Step(s, first[0], cap), first[1..], second, cap);
    }
  }

  lemma StepsOf(s: Sys, acts: seq<Act>, cap: Option<nat>)
    requires acts != []
    ensures After(s, acts, cap) == After(Step(s, acts[0], cap), acts[1..], cap)
  {
  }

  lemma ThreeSteps(s: Sys, a: Act, b: Act, c: Act, cap: Option<nat>)
    ensures After(s, [a, b, c], cap) == Step(Step(Step(s, a, cap), b, cap), c, cap)
  {
    assert [a, b, c][1..] == [b, c] && [b, c][1..] == [c] && [c][1..] == [];
    StepsOf(s, [a, b, c], cap);
    StepsOf(Step(s, a, cap), [b, c], cap);
    StepsOf(Step(Step(s, a, cap), b, cap), [c], cap);
  }

  lemma TwoSteps(s: Sys, a: Act, b: Act, cap: Option<nat>)
    ensures After(s, [a, b], cap) == Step(Step(s, a, cap), b, cap)
  {
    assert [a, b][1..] == [b] && [b][1..] == [];
    StepsOf(s, [a, b], cap);
    StepsOf(Step(s, a, cap), [b], cap);
  }

  lemma AfterFour(s: Sys, a: seq<Act>, b: seq<Act>, c: seq<Act>, d: seq<Act>, cap: Option<nat>)
    ensures After(s, a + b + c + d, cap) == After(After(After(After(s, a, cap), b, cap), c, cap), d, cap)
  {
    AfterBoth(s, a + b + c, d, cap);
    AfterBoth(s, a + b, c, cap);
    AfterBoth(s, a, b, cap);
  }

  /** Nobody else has the key. */
  predicate Open(claims: map<Key, Wallet>, k: Key, w: Wallet) {
    k in claims ==> claims[k] == w
  }

  /** The wallet has a place, or there is one left. */
  predicate Room(entrants: set<Wallet>, w: Wallet, cap: Option<nat>) {
    w in entrants || cap.None? || |entrants| < cap.value
  }

  /** The run of this entry is in this phase. */
  predicate At(s: Sys, pid: nat, wallet: Wallet, handle: string, email: string, existing: Option<Record>, phase: Phase) {
    && pid in s.runs
    && var r := s.runs[pid];
    r.wallet == wallet && r.handle == handle && r.email == email && r.existing == existing && r.phase == phase
  }

  /** Nothing but this run and the store changed. */
  ghost predicate OnlyRun(s: Sys, t: Sys, pid: nat) {
    t.runs.Keys == s.runs.Keys + {pid} && forall q :: q in s.runs && q != pid ==> t.runs[q] == s.runs[q]
  }

  lemma HandleTaken(s: Sys, pid: nat, wallet: Wallet, handle: string, email: string, own: bool, cap: Option<nat>)
    requires pid !in s.runs && NotVerified(RecordOf(s, wallet)) && Open(s.claims, HandleKeyOf(handle), wallet)
    requires own <==> HandleKeyOf(handle) in s.claims
    ensures var t := After(s, [Begin(pid, wallet, handle, email), Go(pid), Go(pid)] + (if own then [Go(pid)] else []), cap);
            && At(t, pid, wallet, handle, email, RecordOf(s, wallet), ClaimEmail) && OnlyRun(s, t, pid)
            && t.claims == s.claims[HandleKeyOf(handle) := wallet] && t.records == s.records && t.entrants == s.entrants
  {
    var first, more := [Begin(pid, wallet, handle, email), Go(pid), Go(pid)], if own then [Go(pid)] else [];
    ThreeSteps(s, first[0], Go(pid), Go(pid), cap);
    AfterBoth(s, first, more, cap);
    if own {
      StepsOf(After(s, first, cap), more, cap);
    }
  }

  lemma EmailTaken(s: Sys, pid: nat, wallet: Wallet, handle: string, email: string, existing: Option<Record>, own: bool, cap: Option<nat>)
    requires At(s, pid, wallet, handle, email, existing, ClaimEmail) && Open(s.claims, EmailKey(email), wallet)
    requires own <==> EmailKey(email) in s.claims
    ensures var t := After(s, [Go(pid)] + (if own then [Go(pid)] else []), cap);
            && At(t, pid, wallet, handle, email, existing, Phase.Place) && OnlyRun(s, t, pid)
            && t.claims == s.claims[EmailKey(email) := wallet] && t.records == s.records && t.entrants == s.entrants
  {
    if own {
      TwoSteps(s, Go(pid), Go(pid), cap);
      assert [Go(pid)] + [Go(pid)] == [Go(pid), Go(pid)];
    } else {
      StepsOf(s, [Go(pid)], cap);
      assert [Go(pid)] + [] == [Go(pid)];
    }
  }

  lemma RecordWritten(s: Sys, pid: nat, wallet: Wallet, handle: string, email: string, existing: Option<Record>, cap: Option<nat>)
    requires At(s, pid, wallet, handle, email, existing, Phase.Place) && Room(s.entrants, wallet, cap)
    ensures var t := After(s, [Go(pid), Go(pid)], cap);
            && At(t, pid, wallet, handle, email, existing, if existing.None? then Done(true) else ReadStale(StaleKeys(existing, handle, email), {}))
            && OnlyRun(s, t, pid) && t.claims == s.claims && t.entrants == s.entrants + {wallet}
            && t.records == s.records[wallet := Record(wallet, handle, email, true)]
  {
    TwoSteps(s, Go(pid), Go(pid), cap);
    assert At(Step(s, Go(pid), cap), pid, wallet, handle, email, existing, WriteRecord);
  }

  /** The wallet's own keys among those it no longer uses. */
  function LetGo(claims: map<Key, Wallet>, wallet: Wallet, stale: set<Key>): set<Key> {
    set k | k in stale && Has(claims, k, wallet)
  }

  /** The tail of an entry that replaces a pending one: both of its keys are read, and those that are stale and the wallet's deleted. */
  function Tidying(pid: nat, prior: Record): seq<Act> {
    [ReadKey(pid, HandleKeyOf(prior.handle)), ReadKey(pid, EmailKey(prior.email))] + [Go(pid), Go(pid)]
  }

  lemma KeyRead(s: Sys, pid: nat, wallet: Wallet, handle: string, email: string, existing: Option<Record>, pending: set<Key>, mine: set<Key>, k: Key, cap: Option<nat>)
    requires At(s, pid, wallet, handle, email, existing, ReadStale(pending, mine))
    ensures var t := Step(s, ReadKey(pid, k), cap);
            && At(t, pid, wallet, handle, email, existing, ReadStale(pending - {k}, mine + LetGo(s.claims, wallet, pending * {k})))
            && t == s.(runs := t.runs) && OnlyRun(s, t, pid)
  {
    assert k !in pending ==> pending - {k} == pending && pending * {k} == {};
  }

  lemma LetGoBoth(claims: map<Key, Wallet>, wallet: Wallet, stale: set<Key>, hk: Key, ek: Key)
    requires stale <= {hk, ek}
    ensures stale - {hk} - {ek} == {}
    ensures {} + LetGo(claims, wallet, stale * {hk}) + LetGo(claims, wallet, (stale - {hk}) * {ek}) == LetGo(claims, wallet, stale)
  {
  }

  lemma StaleRead(s: Sys, pid: nat, wallet: Wallet, handle: string, email: string, prior: Record, cap: Option<nat>)
    requires At(s, pid, wallet, handle, email, Some(prior), ReadStale(StaleKeys(Some(prior), handle, email), {}))
    ensures var t := After(s, [ReadKey(pid, HandleKeyOf(prior.handle)), ReadKey(pid, EmailKey(prior.email))], cap);
            && At(t, pid, wallet, handle, email, Some(prior), ReadStale({}, LetGo(s.claims, wallet, StaleKeys(Some(prior), handle, email))))
            && t == s.(runs := t.runs) && OnlyRun(s, t, pid)
  {
    var stale := StaleKeys(Some(prior), handle, email);
    var hk, ek := HandleKeyOf(prior.handle), EmailKey(prior.email);
    TwoSteps(s, ReadKey(pid, hk), ReadKey(pid, ek), cap);
    KeyRead(s, pid, wallet, handle, email, Some(prior), stale, {}, hk, cap);
    KeyRead(Step(s, ReadKey(pid, hk), cap), pid, wallet, handle, email, Some(prior), stale - {hk}, {} + LetGo(s.claims, wallet, stale * {hk}), ek, cap);
    LetGoBoth(s.claims, wallet, stale, hk, ek);
  }

  lemma StaleDropped(s: Sys, pid: nat, wallet: Wallet, handle: string, email: string, existing: Option<Record>, mine: set<Key>, cap: Option<nat>)
    requires At(s, pid, wallet, handle, email, existing, ReadStale({}, mine))
    ensures var t := After(s, [Go(pid), Go(pid)], cap);
            && At(t, pid, wallet, handle, email, existing, Done(true)) && OnlyRun(s, t, pid)
            && t.claims == s.claims - mine && t.records == s.records && t.entrants == s.entrants
  {
    TwoSteps(s, Go(pid), Go(pid), cap);
    if mine != {} {
      assert At(Step(s, Go(pid), cap), pid, wallet, handle, email, existing, DropStale(mine));
    }
  }

  lemma Tidied(s: Sys, pid: nat, wallet: Wallet, handle: string, email: string, prior: Record, cap: Option<nat>)
    requires At(s, pid, wallet, handle, email, Some(prior), ReadStale(StaleKeys(Some(prior), handle, email), {}))
    ensures var t := After(s, Tidying(pid, prior), cap);
            && At(t, pid, wallet, handle, email, Some(prior), Done(true)) && OnlyRun(s, t, pid)
            && t.claims == s.claims - LetGo(s.claims, wallet, StaleKeys(Some(prior), handle, email))
            && t.records == s.records && t.entrants == s.entrants
  {
    var gets := [ReadKey(pid, HandleKeyOf(prior.handle)), ReadKey(pid, EmailKey(prior.email))];
    AfterBoth(s, gets, [Go(pid), Go(pid)], cap);
    StaleRead(s, pid, wallet, handle, email, prior, cap);
    StaleDropped(After(s, gets, cap), pid, wallet, handle, email, Some(prior), LetGo(s.claims, wallet, StaleKeys(Some(prior), handle, email)), cap);
  }

  /** One run on its own, from its beginning to its keys: `ownHandle` and `ownEmail` when the wallet has those claims already. */
  function Claiming(pid: nat, wallet: Wallet, handle: string, email: string, ownHandle: bool, ownEmail: bool): seq<Act> {
    ([Begin(pid, wallet, handle, email), Go(pid), Go(pid)] + (if ownHandle then [Go(pid)] else []))
    + ([Go(pid)] + (if ownEmail then [Go(pid)] else []))
  }

  lemma KeysClaimed(s: Sys, pid: nat, wallet: Wallet, handle: string, email: string, cap: Option<nat>)
    requires pid !in s.runs && NotVerified(RecordOf(s, wallet))
    requires Open(s.claims, HandleKeyOf(handle), wallet) && Open(s.claims, EmailKey(email), wallet)
    ensures var t := After(s, Claiming(pid, wallet, handle, email, HandleKeyOf(handle) in s.claims, EmailKey(email) in s.claims), cap);
            && At(t, pid, wallet, handle, email, RecordOf(s, wallet), Phase.Place) && OnlyRun(s, t, pid)
            && t.claims == s.claims[HandleKeyOf(handle) := wallet][EmailKey(email) := wallet]
            && t.records == s.records && t.entrants == s.entrants
  {
    var ownHandle, ownEmail := HandleKeyOf(handle) in s.claims, EmailKey(email) in s.claims;
    var first := [Begin(pid, wallet, handle, email), Go(pid), Go(pid)] + (if ownHandle then [Go(pid)] else []);
    AfterBoth(s, first, [Go(pid)] + (if ownEmail then [Go(pid)] else []), cap);
    HandleTaken(s, pid, wallet, handle, email, ownHandle, cap);
    EmailTaken(After(s, first, cap), pid, wallet, handle, email, RecordOf(s, wallet), ownEmail, cap);
  }

  /** The place, the record, and the tidying when there was a pending entry. */
  function Finishing(pid: nat, existing: Option<Record>): seq<Act> {
    [Go(pid), Go(pid)] + (if existing.None? then [] else Tidying(pid, existing.value))
  }

  lemma EntryFinished(s: Sys, pid: nat, wallet: Wallet, handle: string, email: string, existing: Option<Record>, cap: Option<nat>)
    requires At(s, pid, wallet, handle, email, existing, Phase.Place) && Room(s.entrants, wallet, cap)
    ensures var t := After(s, Finishing(pid, existing), cap);
            && At(t, pid, wallet, handle, email, existing, Done(true)) && OnlyRun(s, t, pid)
            && t.records == s.records[wallet := Record(wallet, handle, email, true)] && t.entrants == s.entrants + {wallet}
            && t.claims == s.claims - LetGo(s.claims, wallet, StaleKeys(existing, handle, email))
  {
    AfterBoth(s, [Go(pid), Go(pid)], if existing.None? then [] else Tidying(pid, existing.value), cap);
    RecordWritten(s, pid, wallet, handle, email, existing, cap);
    if existing.Some? {
      Tidied(After(s, [Go(pid), Go(pid)], cap), pid, wallet, handle, email, existing.value, cap);
    } else {
      assert LetGo(s.claims, wallet, {}) == {};
    }
  }

  function Entering(pid: nat, wallet: Wallet, handle: string, email: string, ownHandle: bool, ownEmail: bool, existing: Option<Record>): seq<Act> {
    Claiming(pid, wallet, handle, email, ownHandle, ownEmail) + Finishing(pid, existing)
  }

  /**
    * An entry nobody stands in the way of succeeds: with its handle and email free or already the wallet's, and a place left
    * or held, it ends with the record, both keys and the place, and lets go what a replaced pending entry no longer needs.
    */
  lemma EnteringSucceeds(s: Sys, pid: nat, wallet: Wallet, handle: string, email: string, cap: Option<nat>)
    requires pid !in s.runs && NotVerified(RecordOf(s, wallet)) && Room(s.entrants, wallet, cap)
    requires Open(s.claims, HandleKeyOf(handle), wallet) && Open(s.claims, EmailKey(email), wallet)
    ensures var existing := RecordOf(s, wallet);
            var t := After(s, Entering(pid, wallet, handle, email, HandleKeyOf(handle) in s.claims, EmailKey(email) in s.claims, existing), cap);
            && At(t, pid, wallet, handle, email, existing, Done(true)) && OnlyRun(s, t, pid)
            && t.records == s.records[wallet := Record(wallet, handle, email, true)]
            && t.entrants == s.entrants + {wallet}
            && t.claims == s.claims[HandleKeyOf(handle) := wallet][EmailKey(email) := wallet] - LetGo(s.claims, wallet, StaleKeys(existing, handle, email))
  {
    var existing := RecordOf(s, wallet);
    var keys := Claiming(pid, wallet, handle, email, HandleKeyOf(handle) in s.claims, EmailKey(email) in s.claims);
    AfterBoth(s, keys, Finishing(pid, existing), cap);
    KeysClaimed(s, pid, wallet, handle, email, cap);
    EntryFinished(After(s, keys, cap), pid, wallet, handle, email, existing, cap);
    StaleStays(s.claims, wallet, handle, email, existing);
  }

  /**
    * What such an entry leaves in the claims: its own two keys; of the entry it replaces, a handle that differs in more than
    * case and an email that differs are let go; nothing else changes, for it or for anybody.
    */
  lemma EnteringMeans(s: Sys, pid: nat, wallet: Wallet, handle: string, email: string, prior: Record, cap: Option<nat>)
    requires pid !in s.runs && RecordOf(s, wallet) == Some(prior) && !prior.verified && Room(s.entrants, wallet, cap)
    requires Open(s.claims, HandleKeyOf(handle), wallet) && Open(s.claims, EmailKey(email), wallet)
    ensures var t := After(s, Entering(pid, wallet, handle, email, HandleKeyOf(handle) in s.claims, EmailKey(email) in s.claims, Some(prior)), cap);
            && (forall k :: Has(t.claims, k, wallet)
                            <==> || k == HandleKeyOf(handle) || k == EmailKey(email)
                                 || (&& Has(s.claims, k, wallet)
                                     && !(!SameHandle(prior.handle, handle) && k == HandleKeyOf(prior.handle))
                                     && !(prior.email != email && k == EmailKey(prior.email))))
            && (forall k, other :: other != wallet ==> (Has(t.claims, k, other) <==> Has(s.claims, k, other)))
  {
    EnteringSucceeds(s, pid, wallet, handle, email, cap);
    ClaimsAfter(s.claims, wallet, handle, email, prior);
  }

  lemma ClaimsAfter(claims: map<Key, Wallet>, wallet: Wallet, handle: string, email: string, prior: Record)
    requires Open(claims, HandleKeyOf(handle), wallet) && Open(claims, EmailKey(email), wallet)
    ensures var after := claims[HandleKeyOf(handle) := wallet][EmailKey(email) := wallet] - LetGo(claims, wallet, StaleKeys(Some(prior), handle, email));
            && (forall k :: Has(after, k, wallet)
                            <==> || k == HandleKeyOf(handle) || k == EmailKey(email)
                                 || (&& Has(claims, k, wallet)
                                     && !(!SameHandle(prior.handle, handle) && k == HandleKeyOf(prior.handle))
                                     && !(prior.email != email && k == EmailKey(prior.email))))
            && (forall k, other :: other != wallet ==> (Has(after, k, other) <==> Has(claims, k, other)))
  {
    HandleKeysAgree(prior.handle, handle);
    forall k ensures k in LetGo(claims, wallet, StaleKeys(Some(prior), handle, email))
                <==> && Has(claims, k, wallet)
                     && ((!SameHandle(prior.handle, handle) && k == HandleKeyOf(prior.handle)) || (prior.email != email && k == EmailKey(prior.email))) {
    }
  }

  lemma StaleStays(claims: map<Key, Wallet>, wallet: Wallet, handle: string, email: string, existing: Option<Record>)
    ensures var stale := StaleKeys(existing, handle, email);
            LetGo(claims[HandleKeyOf(handle) := wallet][EmailKey(email) := wallet], wallet, stale) == LetGo(claims, wallet, stale)
  {
  }

  // ---- Why a wallet's own runs must not overlap ----

  /** A run that claimed its handle and finds its email taken lets the handle go. */
  lemma TakenEmailLetsGo(s: Sys, pid: nat)
    requires pid in s.runs && s.runs[pid].phase == ClaimEmail
    requires EmailOf(s.runs[pid]) in s.claims && !Has(s.claims, EmailOf(s.runs[pid]), s.runs[pid].wallet)
    ensures var t := After(s, [Go(pid), Go(pid), Go(pid)], None);
            t.claims == s.claims - s.runs[pid].claimed && t.records == s.records && t.runs.Keys == s.runs.Keys
  {
    ThreeSteps(s, Go(pid), Go(pid), Go(pid), None);
  }

  lemma FirstClaim(s: Sys, pid: nat, wallet: Wallet, handle: string, email: string)
    requires pid !in s.runs && wallet !in s.records && HandleKeyOf(handle) !in s.claims
    ensures var t := After(s, [Begin(pid, wallet, handle, email), Go(pid), Go(pid)], None);
            && t.claims == s.claims[HandleKeyOf(handle) := wallet] && t.records == s.records && t.runs.Keys == s.runs.Keys + {pid}
            && t.runs[pid] == Run(wallet, handle, email, None, {HandleKeyOf(handle)}, Held(s.claims, wallet), ClaimEmail)
  {
    ThreeSteps(s, Begin(pid, wallet, handle, email), Go(pid), Go(pid), None);
  }

  /** One wallet starts twice with one handle, the first time with a taken email; another asks for the handle last. */
  function Overlap(handle: string, taken: string, v: Wallet, ve: string, w: Wallet, we: string): seq<Act> {
    [Begin(1, v, handle, taken), Go(1), Go(1)] + Entering(2, v, handle, ve, true, false, None) + [Go(1), Go(1), Go(1)] + Entering(3, w, handle, we, false, false, None)
  }

  /** The first three parts: the wallet is entered, and its handle is free again. */
  lemma OverlapFreesTheHandle(s: Sys, handle: string, taken: string, v: Wallet, ve: string, we: string) returns (t: Sys)
    requires s.runs == map[] && v !in s.records
    requires HandleKeyOf(handle) !in s.claims && EmailKey(ve) !in s.claims && EmailKey(we) !in s.claims && ve != we
    requires EmailKey(taken) in s.claims && s.claims[EmailKey(taken)] != v
    ensures t == After(After(After(s, [Begin(1, v, handle, taken), Go(1), Go(1)], None), Entering(2, v, handle, ve, true, false, None), None), [Go(1), Go(1), Go(1)], None)
    ensures t.records == s.records[v := Record(v, handle, ve, true)] && 3 !in t.runs
    ensures HandleKeyOf(handle) !in t.claims && EmailKey(we) !in t.claims
  {
    t := After(s, [Begin(1, v, handle, taken), Go(1), Go(1)], None);
    FirstClaim(s, 1, v, handle, taken);
    var u := After(t, Entering(2, v, handle, ve, true, false, None), None);
    SecondEntry(t, v, handle, ve);
    TakenEmailLetsGo(u, 1);
    t := After(u, [Go(1), Go(1), Go(1)], None);
  }

  lemma SecondEntry(s: Sys, v: Wallet, handle: string, ve: string)
    requires 2 !in s.runs && v !in s.records && EmailKey(ve) !in s.claims && Has(s.claims, HandleKeyOf(handle), v)
    ensures var t := After(s, Entering(2, v, handle, ve, true, false, None), None);
            && t.records == s.records[v := Record(v, handle, ve, true)] && OnlyRun(s, t, 2)
            && t.claims == s.claims[EmailKey(ve) := v]
  {
    EnteringSucceeds(s, 2, v, handle, ve, None);
    assert LetGo(s.claims, v, {}) == {};
    assert s.claims[HandleKeyOf(handle) := v] == s.claims;
  }

  lemma SharedHandle(s: Sys, v: Wallet, w: Wallet)
    requires v != w && v in s.records && w in s.records && s.records[v].verified && s.records[w].verified
    requires s.records[v].handle == s.records[w].handle
    ensures !OneEntryPerHandleAndEmail(s)
  {
  }

  /**
    * The claim a run only shares (line 103) is deleted by the run that made it (line 105), so with overlapping runs of one
    * wallet two wallets can end up entered under one handle.
    */
  lemma OverlappingRunsBreakTheHandle(s: Sys, handle: string, taken: string, v: Wallet, ve: string, w: Wallet, we: string)
    requires Initial(s, None) && v != w && v !in s.records && w !in s.records
    requires HandleKeyOf(handle) !in s.claims && EmailKey(ve) !in s.claims && EmailKey(we) !in s.claims && ve != we
    requires EmailKey(taken) in s.claims && s.claims[EmailKey(taken)] != v
    ensures !OneEntryPerHandleAndEmail(After(s, Overlap(handle, taken, v, ve, w, we), None))
  {
    AfterFour(s, [Begin(1, v, handle, taken), Go(1), Go(1)], Entering(2, v, handle, ve, true, false, None), [Go(1), Go(1), Go(1)], Entering(3, w, handle, we, false, false, None), None);
    var t := OverlapFreesTheHandle(s, handle, taken, v, ve, we);
    EnteringSucceeds(t, 3, w, handle, we, None);
    SharedHandle(After(t, Entering(3, w, handle, we, false, false, None), None), v, w);
  }

  // ---- Which store calls break it ----

  predicate Uses(record: Record, k: Key) {
    record.verified && (k == HandleKeyOf(record.handle) || k == EmailKey(record.email))
  }

  /** A verified entry stands on this key. */
  ghost predicate InUse(s: Sys, k: Key) {
    exists w :: w in s.records && Uses(s.records[w], k)
  }

  /** The call deletes a key that an entry stands on, or writes a record without holding both of its keys. */
  ghost predicate Breaks(s: Sys, act: Act) {
    && act.Go? && act.pid in s.runs
    && var r := s.runs[act.pid];
    match r.phase
    case Release => exists k :: k in r.claimed && InUse(s, k)
    case DropStale(drop) => exists k :: k in drop && InUse(s, k)
    case WriteRecord => !(Has(s.claims, HandleOf(r), r.wallet) && Has(s.claims, EmailOf(r), r.wallet))
    case _ => false
  }

  /** A run writes its record only once its wallet has a place, and places are never given back. */
  ghost predicate PlacesKept(s: Sys, cap: Option<nat>) {
    && (cap.Some? ==> |s.entrants| <= cap.value)
    && (forall pid :: pid in s.runs && s.runs[pid].phase.WriteRecord? ==> s.runs[pid].wallet in s.entrants)
  }

  lemma TakePlaceKeeps(entrants: set<Wallet>, w: Wallet, cap: Option<nat>)
    requires cap.Some? ==> |entrants| <= cap.value
    ensures var (after, placed) := TakePlace(entrants, w, cap);
            entrants <= after && (cap.Some? ==> |after| <= cap.value) && (placed ==> w in after)
  {
  }

  lemma AdvanceKeepsWallet(s: Sys, pid: nat, cap: Option<nat>)
    requires pid in s.runs
    ensures pid in Advance(s, pid, cap).runs && Advance(s, pid, cap).runs[pid].wallet == s.runs[pid].wallet
  {
  }

  lemma AdvanceMovesOneRun(s: Sys, pid: nat, cap: Option<nat>)
    requires pid in s.runs
    ensures forall q :: q in Advance(s, pid, cap).runs && q != pid ==> q in s.runs && Advance(s, pid, cap).runs[q] == s.runs[q]
  {
  }

  /** A call gives places only in the place script, and it is what a record waits for. */
  lemma AdvancePlaces(s: Sys, pid: nat, cap: Option<nat>)
    requires pid in s.runs
    ensures var r, t := s.runs[pid], Advance(s, pid, cap);
            && t.entrants == (if r.phase.Place? then TakePlace(s.entrants, r.wallet, cap).0 else s.entrants)
            && (pid in t.runs && t.runs[pid].phase.WriteRecord? ==> r.phase.Place? && TakePlace(s.entrants, r.wallet, cap).1)
  {
  }

  lemma AdvanceKeepsPlaces(s: Sys, pid: nat, cap: Option<nat>)
    requires PlacesKept(s, cap) && pid in s.runs
    ensures PlacesKept(Advance(s, pid, cap), cap)
  {
    AdvanceKeepsWallet(s, pid, cap);
    AdvanceMovesOneRun(s, pid, cap);
    AdvancePlaces(s, pid, cap);
    TakePlaceKeeps(s.entrants, s.runs[pid].wallet, cap);
  }

  lemma StepKeepsPlaces(s: Sys, act: Act, cap: Option<nat>)
    requires PlacesKept(s, cap)
    ensures PlacesKept(Step(s, act, cap), cap)
  {
    match act
    case Go(pid) => if pid in s.runs { AdvanceKeepsPlaces(s, pid, cap); }
    case _ =>
  }

  lemma DeletingBreaks(s: Sys, t: Sys, drop: set<Key>)
    requires AllEntered(s) && t.claims == s.claims - drop && t.records == s.records && t.entrants == s.entrants
    ensures AllEntered(t) <==> !exists k :: k in drop && InUse(s, k)
  {
    if k :| k in drop && InUse(s, k) {
      var w :| w in s.records && Uses(s.records[w], k);
      assert !Entered(t, w);
    } else {
      forall w ensures Entered(t, w) {
        assert Entered(s, w);
        if w in s.records && s.records[w].verified {
          assert Uses(s.records[w], HandleKeyOf(s.records[w].handle)) && Uses(s.records[w], EmailKey(s.records[w].email));
        }
      }
    }
  }

  lemma WritingBreaks(s: Sys, t: Sys, r: Run)
    requires AllEntered(s) && r.wallet in s.entrants
    requires t.claims == s.claims && t.records == s.records[r.wallet := Record(r.wallet, r.handle, r.email, true)] && t.entrants == s.entrants
    ensures AllEntered(t) <==> Has(s.claims, HandleOf(r), r.wallet) && Has(s.claims, EmailOf(r), r.wallet)
  {
    forall w | w != r.wallet ensures Entered(t, w) {
      assert Entered(s, w);
    }
    if AllEntered(t) {
      assert Entered(t, r.wallet);
    }
  }

  lemma GrowingKeeps(s: Sys, t: Sys)
    requires AllEntered(s) && t.records == s.records && s.entrants <= t.entrants
    requires forall k :: k in s.claims ==> k in t.claims && t.claims[k] == s.claims[k]
    ensures AllEntered(t)
  {
    forall w ensures Entered(t, w) {
      assert Entered(s, w);
    }
  }

  /** From a state where every entry is whole, whatever runs overlap: a step leaves one that is not exactly when it is such a call. */
  lemma StepBreaksExactly(s: Sys, act: Act, cap: Option<nat>)
    requires AllEntered(s) && PlacesKept(s, cap)
    ensures AllEntered(Step(s, act, cap)) <==> !Breaks(s, act)
  {
    var t := Step(s, act, cap);
    if act.Go? && act.pid in s.runs {
      var r := s.runs[act.pid];
      match r.phase
      case Release => DeletingBreaks(s, t, r.claimed);
      case DropStale(drop) => DeletingBreaks(s, t, drop);
      case WriteRecord => WritingBreaks(s, t, r);
      case _ => GrowingKeeps(s, t);
    } else {
      GrowingKeeps(s, t);
    }
  }

  ghost predicate NeverBreaks(s: Sys, acts: seq<Act>, cap: Option<nat>)
    decreases |acts|
  {
    acts != [] ==> !Breaks(s, acts[0]) && NeverBreaks(Step(s, acts[0], cap), acts[1..], cap)
  }

  ghost predicate EnteredThroughout(s: Sys, acts: seq<Act>, cap: Option<nat>)
    decreases |acts|
  {
    AllEntered(s) && (acts != [] ==> EnteredThroughout(Step(s, acts[0], cap), acts[1..], cap))
  }

  lemma {:induction false} BreaksDecide(s: Sys, acts: seq<Act>, cap: Option<nat>)
    requires AllEntered(s) && PlacesKept(s, cap)
    ensures EnteredThroughout(s, acts, cap) <==> NeverBreaks(s, acts, cap)
    ensures NeverBreaks(s, acts, cap) ==> AllEntered(After(s, acts, cap))
    decreases |acts|
  {
    if acts != [] {
      StepKeepsPlaces(s, acts[0], cap);
      StepBreaksExactly(s, acts[0], cap);
      if !Breaks(s, acts[0]) {
        BreaksDecide(Step(s, acts[0], cap), acts[1..], cap);
      }
    }
  }

  lemma {:induction false} PlacesAlways(s: Sys, acts: seq<Act>, cap: Option<nat>)
    requires PlacesKept(s, cap)
    ensures PlacesKept(After(s, acts, cap), cap)
    decreases |acts|
  {
    if acts != [] {
      StepKeepsPlaces(s, acts[0], cap);
      PlacesAlways(Step(s, acts[0], cap), acts[1..], cap);
    }
  }

  /**
    * Any history, overlapping runs of one wallet included: every verified entry has its place and both keys all along exactly
    * when no call breaks it, and entries are then exclusive; the places never pass the cap in any case.
    */
  lemma HistoryBreaksExactly(s: Sys, acts: seq<Act>, cap: Option<nat>)
    requires Initial(s, cap)
    ensures EnteredThroughout(s, acts, cap) <==> NeverBreaks(s, acts, cap)
    ensures NeverBreaks(s, acts, cap) ==> Exclusive(After(s, acts, cap), cap)
    ensures cap.Some? ==> |After(s, acts, cap).entrants| <= cap.value
  {
    BreaksDecide(s, acts, cap);
    PlacesAlways(s, acts, cap);
    if NeverBreaks(s, acts, cap) {
      EnteredIsExclusive(After(s, acts, cap), cap);
    }
  }

  /** With one run per wallet at a time no call breaks anything. */
  lemma {:induction false} SerialNeverBreaks(s: Sys, acts: seq<Act>, cap: Option<nat>)
    requires Inv(s, cap) && SerialHistory(s, acts, cap)
    ensures NeverBreaks(s, acts, cap)
    decreases |acts|
  {
    if acts != [] {
      StepKeepsInv(s, acts[0], cap);
      InvKeepsPlaces(s, cap);
      StepBreaksExactly(s, acts[0], cap);
      SerialNeverBreaks(Step(s, acts[0], cap), acts[1..], cap);
    }
  }

  lemma InvKeepsPlaces(s: Sys, cap: Option<nat>)
    requires Inv(s, cap)
    ensures AllEntered(s) && PlacesKept(s, cap)
  {
    forall pid | pid in s.runs && s.runs[pid].phase.WriteRecord? ensures s.runs[pid].wallet in s.entrants {
      assert RunOk(s, s.runs[pid]);
    }
  }
}
