/** The consecutive-signal filter (signal/policy.py): one bounded window of recent
    actions per symbol, and the entry and exit permissions read from it. */
module SignalPolicies {
  import opened Domain

  datatype Mode = LongOnly | LongShort | OtherMode(name: string)

  datatype Policy = Policy(required: nat, mode: Mode, history: map<Symbol, seq<Action>>) {
    function Window(symbol: Symbol): seq<Action> {
      if symbol in history then history[symbol] else []
    }

    function Record(symbol: Symbol, action: Action): Policy {
      this.(history := history[symbol := LastN(Window(symbol) + [action], required)])
    }

    function Reset(symbol: Symbol): Policy {
      this.(history := history - {symbol})
    }

    function SetRequired(value: int): Policy {
      var n := Max(1, value);
      if n == required then this else Policy(n, mode, map[])
    }

    function SetMode(m: Mode): Policy {
      if m == mode then this else Policy(required, m, map[])
    }

    predicate IsConsecutive(symbol: Symbol, action: Action) {
      |Window(symbol)| == required && forall i :: 0 <= i < |Window(symbol)| ==> Window(symbol)[i] == action
    }

    predicate AllowsEntry(symbol: Symbol, action: Action) {
      match action
      case Hold => false
      case Buy => mode in {LongOnly, LongShort} && IsConsecutive(symbol, Buy)
      case Sell => mode == LongShort && IsConsecutive(symbol, Sell)
    }

    predicate AllowsLongExit(symbol: Symbol) {
      mode in {LongOnly, LongShort} && IsConsecutive(symbol, Sell)
    }

    predicate AllowsShortExit(symbol: Symbol) {
      mode == LongShort && IsConsecutive(symbol, Buy)
    }
  }

  class ConsecutiveSignalPolicy {
    var required: nat
    var mode: Mode
    var history: map<Symbol, seq<Action>>

    function View(): Policy
      reads this
    {
      Policy(required, mode, history)
    }

    constructor (consecutiveRequired: int, mode: Mode)
      ensures View() == Policy(Max(1, consecutiveRequired), mode, map[])
    {
      required := Max(1, consecutiveRequired);
      this.mode := mode;
      history := map[];
    }

    method SetConsecutiveRequired(value: int)
      modifies this
      ensures View() == old(View()).SetRequired(value)
    {
      var n := Max(1, value);
      if n == required {
        return;
      }
      required := n;
      history := map[];
    }

    method SetMode(m: Mode)
      modifies this
      ensures View() == old(View()).SetMode(m)
    {
      if m == mode {
        return;
      }
      mode := m;
      history := map[];
    }

    /** A deque with a maximum length: append on the right, drop on the left. */
    method Record(symbol: Symbol, action: Action)
      modifies this
      ensures View() == old(View()).Record(symbol, action)
    {
      var window := (if symbol in history then history[symbol] else []) + [action];
      history := history[symbol := if |window| > required then window[|window| - required..] else window];
    }

    method IsConsecutive(symbol: Symbol, action: Action) returns (ok: bool)
      ensures ok == View().IsConsecutive(symbol, action)
    {
      var window := if symbol in history then history[symbol] else [];
      ok := |window| == required;
      var i := 0;
      while i < |window|
        invariant 0 <= i <= |window|
        invariant ok == (|window| == required && forall j :: 0 <= j < i ==> window[j] == action)
      {
        if window[i] != action {
          ok := false;
        }
        i := i + 1;
      }
    }

    method Reset(symbol: Symbol)
      modifies this
      ensures View() == old(View()).Reset(symbol)
    {
      history := history - {symbol};
    }
  }
}
