/** What an agent key may do with a smart account (contracts/koul_agent_policy/src/lib.rs). */
module AgentPolicy {
  import opened Basics
  import opened MachineInt

  const TICK: Symbol := "tick"
  const TRANSFER: Symbol := "transfer"
  const WITHDRAW: Symbol := "withdraw"
  const SUPPLY: Symbol := "supply"
  const REPAY: Symbol := "repay"
  const EXECUTE_STRATEGY: Symbol := "execute_strategy"

  /** A call argument as the policy can tell them apart; every other value is `Opaque`. */
  datatype Val = AddressVal(address: Address) | U64Val(n: nat) | Void | Opaque

  datatype Context =
    | Contract(contract: Address, fnName: Symbol, args: seq<Val>)
    | CreateContract

  datatype Params = Params(accountId: nat, allowedCalls: seq<(Address, Symbol)>, allowedTransferRecipients: seq<Address>,
                           maxCallsPerWindow: nat, windowLedgers: nat)
  datatype Window = Window(start: nat, calls: nat)
  datatype Session = Session(router: Address, ledger: nat)

  datatype Error =
    | NotInstalled | NoSigners | NotContractContext | CallNotAllowed | TransferRecipientNotAllowed | Arity | RateLimited
    | BadParams | AccountNotAllowed | WithdrawRecipientNotAllowed | NoSession | SenderNotAllowed | RouterAuthMissing

  datatype Outcome<+T> = Accepted(value: T) | Rejected(error: Error) {
    predicate IsFailure() {
      Rejected?
    }

    function PropagateFailure<U>(): Outcome<U>
      requires Rejected?
    {
      Rejected(error)
    }

    function Extract(): T
      requires Accepted?
    {
      value
    }
  }

  /** The policy's storage. A key is a smart account and the id of the context rule the policy sits on. */
  type Key = (Address, nat)
  datatype Store = Store(params: map<Key, Params>, windows: map<Key, Window>, sessions: map<Address, Session>)

  // ---- What a call must look like ----

  function CheckAccount(args: seq<Val>, accountId: nat): Outcome<()>
    requires |args| > 1
  {
    if !args[1].U64Val? then Rejected(Arity)
    else if args[1].n != accountId then Rejected(AccountNotAllowed)
    else Accepted(())
  }

  function CheckArgs(p: Params, fnName: Symbol, args: seq<Val>, account: Address): Outcome<()> {
    if fnName == TRANSFER then
      if |args| != 3 || !args[1].AddressVal? then Rejected(Arity)
      else if args[1].address !in p.allowedTransferRecipients then Rejected(TransferRecipientNotAllowed)
      else Accepted(())
    else if fnName == WITHDRAW then
      if |args| != 4 then Rejected(Arity)
      else
        var _ :- CheckAccount(args, p.accountId);
        if args[3].Void? then Accepted(())
        else if !args[3].AddressVal? then Rejected(Arity)
        else if args[3].address != account then Rejected(WithdrawRecipientNotAllowed)
        else Accepted(())
    else if fnName == SUPPLY then
      if |args| != 4 then Rejected(Arity) else CheckAccount(args, p.accountId)
    else if fnName == REPAY then
      if |args| != 3 then Rejected(Arity) else CheckAccount(args, p.accountId)
    else if fnName == EXECUTE_STRATEGY then
      if |args| != 3 || !args[0].AddressVal? then Rejected(Arity)
      else if args[0].address != account then Rejected(SenderNotAllowed)
      else Accepted(())
    else Accepted(())
  }

  /** A tick opens a session for its ledger; any other call needs the one open in this ledger. */
  function NextSessions(sessions: map<Address, Session>, account: Address, contract: Address, fnName: Symbol, now: nat): Outcome<map<Address, Session>> {
    if fnName == TICK then Accepted(sessions[account := Session(contract, now)])
    else if account in sessions && sessions[account].ledger == now then Accepted(sessions)
    else Rejected(NoSession)
  }

  function WindowOf(windows: map<Key, Window>, key: Key): Option<Window> {
    if key in windows then Some(windows[key]) else None
  }

  function NextWindow(stored: Option<Window>, p: Params, now: nat): Outcome<Window> {
    var open := if stored.Some? then stored.value else Window(now, 0);
    var current := if SaturatingSub(now, open.start) >= p.windowLedgers then Window(now, 0) else open;
    if current.calls + 1 > p.maxCallsPerWindow then Rejected(RateLimited)
    else Accepted(current.(calls := current.calls + 1))
  }

  /** One authorization context. A rejection reverts every write of the call, so it leaves no new store. */
  function Enforce(s: Store, context: Context, signers: nat, ruleId: nat, account: Address, now: nat): Outcome<Store> {
    var key := (account, ruleId);
    if signers == 0 then Rejected(NoSigners)
    else if key !in s.params then Rejected(NotInstalled)
    else if !context.Contract? then Rejected(NotContractContext)
    else
      var p := s.params[key];
      if (context.contract, context.fnName) !in p.allowedCalls then Rejected(CallNotAllowed)
      else
        var sessions :- NextSessions(s.sessions, account, context.contract, context.fnName, now);
        var _ :- CheckArgs(p, context.fnName, context.args, account);
        var window :- NextWindow(WindowOf(s.windows, key), p, now);
        Accepted(Store(s.params, s.windows[key := window], sessions))
  }

  function Install(s: Store, p: Params, ruleId: nat, account: Address): Outcome<Store> {
    if p.accountId == 0 || p.allowedCalls == [] || p.maxCallsPerWindow == 0 || p.windowLedgers == 0 then Rejected(BadParams)
    else Accepted(s.(params := s.params[(account, ruleId) := p]))
  }

  function Uninstall(s: Store, ruleId: nat, account: Address): Store {
    s.(params := s.params - {(account, ruleId)}, windows := s.windows - {(account, ruleId)})
  }

  /** Only the contract that opened a session closes it; with none open there is nothing to close. */
  function EndSession(sessions: map<Address, Session>, account: Address, invoker: Address): Outcome<map<Address, Session>> {
    if account !in sessions then Accepted(sessions)
    else if sessions[account].router != invoker then Rejected(RouterAuthMissing)
    else Accepted(sessions - {account})
  }

  /** The contract itself: three storage maps that its entry points write one after the other. */
  class Policy {
    var params: map<Key, Params>
    var windows: map<Key, Window>
    var sessions: map<Address, Session>

    constructor ()
      ensures State() == Store(map[], map[], map[])
    {
      params, windows, sessions := map[], map[], map[];
    }

    ghost function State(): Store
      reads this
    {
      Store(params, windows, sessions)
    }

    /** A panic undoes what the call wrote before it. */
    method Revert(savedWindows: map<Key, Window>, savedSessions: map<Address, Session>, why: Error) returns (r: Outcome<()>)
      modifies this
      ensures r == Rejected(why)
      ensures State() == Store(old(params), savedWindows, savedSessions)
    {
      windows, sessions := savedWindows, savedSessions;
      r := Rejected(why);
    }

    method EnforceContext(context: Context, signers: nat, ruleId: nat, account: Address, now: nat) returns (r: Outcome<()>)
      modifies this
      ensures match Enforce(old(State()), context, signers, ruleId, account, now)
              case Accepted(after) => r == Accepted(()) && State() == after
              case Rejected(why) => r == Rejected(why) && State() == old(State())
    {
      var savedWindows, savedSessions := windows, sessions;
      var key := (account, ruleId);
      if signers == 0 { return Rejected(NoSigners); }
      if key !in params { return Rejected(NotInstalled); }
      if !context.Contract? { return Rejected(NotContractContext); }
      var p := params[key];
      if (context.contract, context.fnName) !in p.allowedCalls { return Rejected(CallNotAllowed); }
      if context.fnName == TICK {
        sessions := sessions[account := Session(context.contract, now)];
      } else if account !in sessions || sessions[account].ledger != now {
        return Rejected(NoSession);
      }
      var checked := CheckArgs(p, context.fnName, context.args, account);
      if checked.Rejected? {
        r := Revert(savedWindows, savedSessions, checked.error);
        return;
      }
      var w := if key in windows then windows[key] else Window(now, 0);
      if SaturatingSub(now, w.start) >= p.windowLedgers {
        w := Window(now, 0);
      }
      w := w.(calls := w.calls + 1);
      if w.calls > p.maxCallsPerWindow {
        r := Revert(savedWindows, savedSessions, RateLimited);
        return;
      }
      windows := windows[key := w];
      r := Accepted(());
    }

    method InstallOn(p: Params, ruleId: nat, account: Address) returns (r: Outcome<()>)
      modifies this
      ensures match Install(old(State()), p, ruleId, account)
              case Accepted(after) => r == Accepted(()) && State() == after
              case Rejected(why) => r == Rejected(why) && State() == old(State())
    {
      if p.accountId == 0 || p.allowedCalls == [] || p.maxCallsPerWindow == 0 || p.windowLedgers == 0 {
        return Rejected(BadParams);
      }
      params := params[(account, ruleId) := p];
      r := Accepted(());
    }

    method UninstallFrom(ruleId: nat, account: Address)
      modifies this
      ensures State() == Uninstall(old(State()), ruleId, account)
    {
      params := params - {(account, ruleId)};
      windows := windows - {(account, ruleId)};
    }

    method CloseSession(account: Address, invoker: Address) returns (r: Outcome<()>)
      modifies this
      ensures match EndSession(old(sessions), account, invoker)
              case Accepted(after) => r == Accepted(()) && State() == old(State()).(sessions := after)
              case Rejected(why) => r == Rejected(why) && State() == old(State())
    {
      if account in sessions {
        if sessions[account].router != invoker {
          return Rejected(RouterAuthMissing);
        }
        sessions := sessions - {account};
      }
      r := Accepted(());
    }
  }
}
