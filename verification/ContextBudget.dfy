/** Fitting one model request into its window (demo/context.py): required messages whole, then memory,
    a recent window, retrieved sources and older turns as far as they fit. */
module ContextBudget {
  import opened Wrappers
  import opened Places

  // ---------------------------------------------------------------- policy

  datatype Policy = Policy(limit: int, reserve: int, usable: int, compressPct: int, compressAt: int, keepRecent: nat)

  predicate ValidLimits(limit: int, reserve: int) {
    1024 <= limit <= 2_000_000 && 128 <= reserve < limit
  }

  /** What fitting a request relies on. */
  predicate ValidPolicy(p: Policy) {
    0 <= p.compressAt < p.usable
  }

  const DEFAULT_LIMIT := 32_768
  const DEFAULT_RESERVE := 4_096

  function Min(a: int, b: int): int {
    if a <= b then a else b
  }

  function Max(a: int, b: int): int {
    if a >= b then a else b
  }

  /** _env_int: an entry that is absent, no integer or not positive counts as its default. */
  function EnvInt(entry: Option<int>, default: int): int {
    if entry.Some? && entry.value > 0 then entry.value else default
  }

  /** policy() from environment entries, integers of any size; `configured` are runtime limits set before. */
  method ReadPolicy(configured: Option<(int, int)>, envLimit: Option<int>, envReserve: Option<int>, pct: Option<int>, keep: Option<int>)
    returns (p: Policy)
    requires configured.Some? ==> ValidLimits(configured.value.0, configured.value.1)
    ensures ValidPolicy(p) && ValidLimits(p.limit, p.reserve)
    ensures p.usable == p.limit - p.reserve && p.compressAt == p.usable * p.compressPct / 100
    ensures configured.Some? ==> (p.limit, p.reserve) == configured.value
    ensures configured.None? ==>
              && p.limit == (if envLimit.Some? && 1024 <= envLimit.value <= 2_000_000 then envLimit.value else DEFAULT_LIMIT)
              && var reserve := EnvInt(envReserve, DEFAULT_RESERVE);
                 p.reserve == if ValidLimits(p.limit, reserve) then reserve else Min(DEFAULT_RESERVE, Max(128, p.limit / 4))
    ensures p.compressPct == (if pct.None? || pct.value <= 0 then 70 else if pct.value > 99 then 99 else pct.value)
    ensures p.keepRecent == (if keep.None? || keep.value <= 0 then 4 else if keep.value == 1 then 2 else keep.value)
  {
    var limit, reserve := EnvInt(envLimit, DEFAULT_LIMIT), EnvInt(envReserve, DEFAULT_RESERVE);
    if configured.Some? {
      limit, reserve := configured.value.0, configured.value.1;
    } else {
      if !(1024 <= limit <= 2_000_000) {
        limit := DEFAULT_LIMIT;
      }
      if !(128 <= reserve < limit) {
        reserve := Min(DEFAULT_RESERVE, Max(128, limit / 4));
      }
    }
    var percent := Min(99, Max(1, EnvInt(pct, 70)));
    var usable := limit - reserve;
    PercentBelow(usable, percent);
    p := Policy(limit, reserve, usable, percent, usable * percent / 100, Max(2, EnvInt(keep, 4)));
  }

  lemma {:induction false} PercentBelow(u: int, pct: int)
    requires u > 0 && 0 <= pct <= 99
    ensures 0 <= u * pct / 100 < u
  {
    var x := u * pct;
    assert x == 99 * u - u * (99 - pct);
    assert 0 <= u * (99 - pct);
    assert 0 <= x <= 99 * u;
    assert x / 100 < u;
  }

  // ---------------------------------------------------------------- messages

  datatype Role = System | Developer | User | Assistant | Tool
  datatype SourceId = Given(id: string) | Numbered(n: nat)
  datatype Body = Text(text: string) | Memory(text: string) | Reference(id: SourceId, title: string, text: string)
  datatype Message = Message(role: Role, body: Body)

  /** `tokens` estimates the tokens of one serialised message. */
  type Tokens = Message -> nat

  /** _message_tokens: the estimate plus the framing allowance. */
  function MessageCost(tokens: Tokens, m: Message): nat {
    tokens(m) + 8
  }

  function Cost(tokens: Tokens, messages: seq<Message>): nat {
    if messages == [] then 0 else MessageCost(tokens, messages[0]) + Cost(tokens, messages[1..])
  }

  /** _tools_tokens of the serialised tool list, if any. */
  function ToolCost(tools: Option<nat>): nat {
    if tools.Some? then tools.value + 16 else 0
  }

  /** What the whole request costs. */
  function RequestCost(tokens: Tokens, messages: seq<Message>, tools: Option<nat>): nat {
    8 + Cost(tokens, messages) + ToolCost(tools)
  }

  lemma {:induction false} CostAppend(tokens: Tokens, a: seq<Message>, b: seq<Message>)
    ensures Cost(tokens, a + b) == Cost(tokens, a) + Cost(tokens, b)
    decreases |a|
  {
    if a == [] {
      assert a + b == b;
    } else {
      CostAppend(tokens, a[1..], b);
      assert (a + b)[1..] == a[1..] + b;
    }
  }

  /** validate_request: the transport's last look at the assembled messages. */
  predicate Validates(tokens: Tokens, messages: seq<Message>, tools: Option<nat>, p: Policy) {
    RequestCost(tokens, messages, tools) <= p.usable
  }

  // ---------------------------------------------------------------- the parts of a request

  datatype Source = Source(id: SourceId, title: string, text: string)
  datatype Request = Request(system: string, history: seq<Message>, memory: string, sources: seq<Source>, tools: Option<nat>)

  predicate IsSystem(m: Message) {
    m.role.System? || m.role.Developer?
  }

  function SystemsOf(history: seq<Message>): seq<Message> {
    if history == [] then []
    else (if IsSystem(history[0]) then [history[0]] else []) + SystemsOf(history[1..])
  }

  function TurnsOf(history: seq<Message>): seq<Message> {
    if history == [] then []
    else (if IsSystem(history[0]) then [] else [history[0]]) + TurnsOf(history[1..])
  }

  function Systems(r: Request): seq<Message> {
    (if r.system == "" then [] else [Message(System, Text(r.system))]) + SystemsOf(r.history)
  }

  function Turns(r: Request): seq<Message> {
    TurnsOf(r.history)
  }

  /** Where the newest user message is, if there is one. */
  function LastUser(turns: seq<Message>): Option<nat> {
    if turns == [] then None
    else if turns[|turns| - 1].role.User? then Some(|turns| - 1)
    else LastUser(turns[..|turns| - 1])
  }

  /** Everything from the newest user message on; without one, the last turn alone. */
  function CurrentStart(turns: seq<Message>): (i: nat)
    ensures i <= |turns|
  {
    LastUserInside(turns);
    if LastUser(turns).Some? then LastUser(turns).value else if turns == [] then 0 else |turns| - 1
  }

  lemma {:induction false} LastUserInside(turns: seq<Message>)
    ensures LastUser(turns).Some? ==> LastUser(turns).value < |turns| && turns[LastUser(turns).value].role.User?
    ensures var from := if LastUser(turns).Some? then LastUser(turns).value + 1 else 0;
            forall k :: from <= k < |turns| ==> !turns[k].role.User?
    decreases |turns|
  {
    if turns != [] {
      LastUserInside(turns[..|turns| - 1]);
    }
  }

  function OldTurns(r: Request): seq<Message> {
    Turns(r)[..CurrentStart(Turns(r))]
  }

  function CurrentTurns(r: Request): seq<Message> {
    Turns(r)[CurrentStart(Turns(r))..]
  }

  function MemoryPart(memory: string): seq<Message> {
    if memory == "" then [] else [Message(System, Memory(memory))]
  }

  /** _references: a source without text is no block. */
  function References(sources: seq<Source>): seq<Message> {
    if sources == [] then []
    else
      (if sources[0].text == "" then [] else [Message(System, Reference(sources[0].id, sources[0].title, sources[0].text))])
      + References(sources[1..])
  }

  /** The messages whose flag is set, in order. */
  function Select(messages: seq<Message>, flags: seq<bool>): (r: seq<Message>)
    requires |messages| == |flags|
  {
    if messages == [] then []
    else Select(messages[..|messages| - 1], flags[..|flags| - 1])
         + if flags[|flags| - 1] then [messages[|messages| - 1]] else []
  }

  /** What has to be in the request whatever happens. */
  function Mandatory(tokens: Tokens, r: Request): nat {
    8 + Cost(tokens, Systems(r)) + Cost(tokens, CurrentTurns(r)) + ToolCost(r.tools)
  }

  /** The recent window that goes before the sources. */
  function Target(r: Request, p: Policy): nat {
    Max(0, p.keepRecent - |CurrentTurns(r)|)
  }

  datatype Components = Components(system: nat, memory: nat, sources: nat, history: nat, current: nat, tools: nat)

  /** The messages and their report; `chosen` marks the reference blocks that were included. */
  datatype Prepared =
    | Refused(cost: nat)
    | Ready(messages: seq<Message>, used: nat, folded: nat, kept: nat, chosen: seq<bool>, memoryOmitted: bool,
            components: Components)

  // ---------------------------------------------------------------- what a prepared request is

  /** The messages are the systems, the memory block, the chosen sources, a suffix of the old turns and
      all current turns, each as given. */
  ghost predicate Assembled(r: Request, a: Prepared)
    requires a.Ready?
  {
    && a.folded <= |OldTurns(r)| && |a.chosen| == |References(r.sources)|
    && a.messages == Systems(r) + (if a.memoryOmitted then [] else MemoryPart(r.memory)) + Select(References(r.sources), a.chosen)
                     + OldTurns(r)[a.folded..] + CurrentTurns(r)
    && a.kept == |OldTurns(r)| - a.folded + |CurrentTurns(r)|
  }

  ghost predicate Accounted(tokens: Tokens, r: Request, a: Prepared)
    requires a.Ready? && Assembled(r, a)
  {
    && a.components == Components(Cost(tokens, Systems(r)), if a.memoryOmitted then 0 else Cost(tokens, MemoryPart(r.memory)),
                                  Cost(tokens, Select(References(r.sources), a.chosen)), Cost(tokens, OldTurns(r)[a.folded..]),
                                  Cost(tokens, CurrentTurns(r)), ToolCost(r.tools))
    && a.used == 8 + a.components.system + a.components.memory + a.components.sources + a.components.history
                 + a.components.current + a.components.tools
  }

  /** The part of the kept turns that was taken before the sources. */
  function WindowOf(r: Request, p: Policy, folded: nat): seq<Message>
    requires folded <= |OldTurns(r)|
  {
    var kept := |OldTurns(r)| - folded;
    OldTurns(r)[|OldTurns(r)| - Min(kept, Target(r, p))..]
  }

  function MemoryCost(tokens: Tokens, r: Request, a: Prepared): nat
    requires a.Ready?
  {
    if a.memoryOmitted then 0 else Cost(tokens, MemoryPart(r.memory))
  }

  /** Costs before the first source is looked at. */
  function BeforeSources(tokens: Tokens, r: Request, p: Policy, a: Prepared): nat
    requires a.Ready? && a.folded <= |OldTurns(r)|
  {
    Mandatory(tokens, r) + MemoryCost(tokens, r, a) + Cost(tokens, WindowOf(r, p, a.folded))
  }

  /** Block i is taken exactly if it fits after the blocks taken before it. */
  predicate TakenIfFits(tokens: Tokens, refs: seq<Message>, chosen: seq<bool>, before: nat, usable: int, i: nat)
    requires i < |chosen| <= |refs|
  {
    chosen[i] <==> before + Cost(tokens, Select(refs[..i], chosen[..i])) + MessageCost(tokens, refs[i]) <= usable
  }

  /** Every choice exactly: memory if it fits; the window until a message does not fit; each source that
      fits; then older turns up to the soft threshold and no further. */
  ghost predicate Chosen(tokens: Tokens, r: Request, p: Policy, a: Prepared)
    requires a.Ready? && Assembled(r, a)
  {
    var older, refs := OldTurns(r), References(r.sources);
    && (a.memoryOmitted <==> r.memory != "" && Mandatory(tokens, r) + Cost(tokens, MemoryPart(r.memory)) > p.usable)
    && (a.folded > 0 && |older| - a.folded < Target(r, p) ==>
          BeforeSources(tokens, r, p, a) + MessageCost(tokens, older[a.folded - 1]) > p.usable)
    && (forall i :: 0 <= i < |refs| ==> TakenIfFits(tokens, refs, a.chosen, BeforeSources(tokens, r, p, a), p.usable, i))
    && (a.folded > 0 ==> a.used + MessageCost(tokens, older[a.folded - 1]) > p.compressAt)
    && (|older| - a.folded > Target(r, p) ==> a.used <= p.compressAt)
  }

  /** A request that prepare_request has fitted. */
  ghost predicate Prepares(tokens: Tokens, r: Request, p: Policy, a: Prepared) {
    && a.Ready? && Assembled(r, a) && Accounted(tokens, r, a) && Chosen(tokens, r, p, a)
    && a.used == RequestCost(tokens, a.messages, r.tools) && Validates(tokens, a.messages, r.tools, p)
  }

  // ---------------------------------------------------------------- the loops

  /** The recent window: newest old turns until one does not fit or the window is full. */
  method KeepRecent(tokens: Tokens, older: seq<Message>, used0: nat, usable: int, target: nat)
    returns (next: nat, used: nat, retained: seq<Message>, cost: nat)
    requires used0 <= usable
    ensures next <= |older| && retained == older[next..] && |retained| <= target
    ensures cost == Cost(tokens, retained) && used == used0 + cost <= usable
    ensures next > 0 && |retained| < target ==> used + MessageCost(tokens, older[next - 1]) > usable
  {
    next, used, retained, cost := |older|, used0, [], 0;
    while next > 0 && |retained| < target
      invariant next <= |older| && retained == older[next..] && |retained| <= target
      invariant cost == Cost(tokens, retained) && used == used0 + cost <= usable
    {
      var c := MessageCost(tokens, older[next - 1]);
      if used + c > usable {
        break;
      }
      retained := [older[next - 1]] + retained;
      used, cost, next := used + c, cost + c, next - 1;
    }
  }

  lemma {:induction false} TakenStays(tokens: Tokens, refs: seq<Message>, chosen: seq<bool>, b: bool, before: nat, usable: int, i: nat)
    requires i < |chosen| < |refs| && TakenIfFits(tokens, refs, chosen, before, usable, i)
    ensures TakenIfFits(tokens, refs, chosen + [b], before, usable, i)
  {
    assert (chosen + [b])[..i] == chosen[..i];
  }

  lemma {:induction false} SelectAppend(refs: seq<Message>, chosen: seq<bool>, b: bool)
    requires |chosen| < |refs|
    ensures Select(refs[..|chosen| + 1], chosen + [b]) == Select(refs[..|chosen|], chosen) + if b then [refs[|chosen|]] else []
  {
    var k := |chosen|;
    assert refs[..k + 1][..k] == refs[..k] && (chosen + [b])[..k] == chosen;
  }

  /** Each block that fits is taken; one that does not is passed over and the next is tried. */
  method ChooseSources(tokens: Tokens, refs: seq<Message>, used0: nat, usable: int)
    returns (chosen: seq<bool>, messages: seq<Message>, cost: nat, used: nat)
    requires used0 <= usable
    ensures |chosen| == |refs| && messages == Select(refs, chosen)
    ensures cost == Cost(tokens, messages) && used == used0 + cost <= usable
    ensures forall i :: 0 <= i < |refs| ==> TakenIfFits(tokens, refs, chosen, used0, usable, i)
  {
    chosen, messages, cost, used := [], [], 0, used0;
    for k := 0 to |refs|
      invariant |chosen| == k && messages == Select(refs[..k], chosen)
      invariant cost == Cost(tokens, messages) && used == used0 + cost <= usable
      invariant forall i :: 0 <= i < k ==> TakenIfFits(tokens, refs, chosen, used0, usable, i)
    {
      var c := MessageCost(tokens, refs[k]);
      var fits := used + c <= usable;
      SelectAppend(refs, chosen, fits);
      forall i | 0 <= i < k ensures TakenIfFits(tokens, refs, chosen + [fits], used0, usable, i) {
        TakenStays(tokens, refs, chosen, fits, used0, usable, i);
      }
      assert (chosen + [fits])[..k] == chosen;
      if fits {
        CostAppend(tokens, messages, [refs[k]]);
        messages := messages + [refs[k]];
        cost, used := cost + c, used + c;
      }
      chosen := chosen + [fits];
    }
    assert refs[..|refs|] == refs;
  }

  /** Older turns while the request stays within the soft threshold. */
  method KeepOlder(tokens: Tokens, older: seq<Message>, next0: nat, used0: nat, cost0: nat, limit: int)
    returns (next: nat, used: nat, retained: seq<Message>, cost: nat)
    requires next0 <= |older| && cost0 == Cost(tokens, older[next0..])
    ensures next <= next0 && retained == older[next..]
    ensures cost == Cost(tokens, retained) && used == used0 + cost - cost0 && used >= used0
    ensures next > 0 ==> used + MessageCost(tokens, older[next - 1]) > limit
    ensures next < next0 ==> used0 + MessageCost(tokens, older[next0 - 1]) <= used <= limit
  {
    next, used, retained, cost := next0, used0, older[next0..], cost0;
    while next > 0
      invariant next <= next0 && retained == older[next..]
      invariant cost == Cost(tokens, retained) && used == used0 + cost - cost0 && used >= used0
      invariant next < next0 ==> used0 + MessageCost(tokens, older[next0 - 1]) <= used <= limit
    {
      var c := MessageCost(tokens, older[next - 1]);
      if used + c > limit {
        break;
      }
      retained := [older[next - 1]] + retained;
      used, cost, next := used + c, cost + c, next - 1;
    }
  }

  /** The memory block, if there is one and it fits. */
  method TakeMemory(tokens: Tokens, memory: string, used0: nat, usable: int) returns (taken: seq<Message>, cost: nat, used: nat, omitted: bool)
    requires used0 <= usable
    ensures omitted <==> memory != "" && used0 + Cost(tokens, MemoryPart(memory)) > usable
    ensures taken == if omitted then [] else MemoryPart(memory)
    ensures cost == Cost(tokens, taken) && used == used0 + cost <= usable
  {
    taken, cost, used, omitted := [], 0, used0, false;
    if memory != "" {
      var c := Cost(tokens, MemoryPart(memory));
      omitted := used + c > usable;
      if !omitted {
        taken, cost, used := MemoryPart(memory), c, used + c;
      }
    }
  }

  /** prepare_request */
  method PrepareRequest(tokens: Tokens, r: Request, p: Policy) returns (a: Prepared)
    requires ValidPolicy(p)
    ensures a.Refused? <==> Mandatory(tokens, r) > p.usable
    ensures a.Refused? ==> a.cost == Mandatory(tokens, r)
    ensures a.Ready? ==> Prepares(tokens, r, p, a)
  {
    var usable := p.usable;
    var systems, older, current := Systems(r), OldTurns(r), CurrentTurns(r);
    var systemCost, currentCost, toolCost := Cost(tokens, systems), Cost(tokens, current), ToolCost(r.tools);
    var used := 8 + systemCost + currentCost + toolCost;
    if used > usable {
      return Refused(used);
    }
    var memory, memoryCost, omitted;
    memory, memoryCost, used, omitted := TakeMemory(tokens, r.memory, used, usable);
    var next, retained, historyCost;
    next, used, retained, historyCost := KeepRecent(tokens, older, used, usable, Target(r, p));
    ghost var next1, used1 := next, used;
    var chosen, sources, sourceCost;
    chosen, sources, sourceCost, used := ChooseSources(tokens, References(r.sources), used, usable);
    next, used, retained, historyCost := KeepOlder(tokens, older, next, used, historyCost, p.compressAt);
    a := Ready(systems + memory + sources + retained + current, used, next, |retained| + |current|, chosen, omitted,
               Components(systemCost, memoryCost, sourceCost, historyCost, currentCost, toolCost));
    PartsOk(tokens, r, a, memory, sources);
    Concluded(tokens, r, p, a, next1, used1);
  }

  lemma {:induction false} PartsOk(tokens: Tokens, r: Request, a: Prepared, memory: seq<Message>, sources: seq<Message>)
    requires a.Ready? && a.folded <= |OldTurns(r)| && |a.chosen| == |References(r.sources)|
    requires memory == (if a.memoryOmitted then [] else MemoryPart(r.memory)) && sources == Select(References(r.sources), a.chosen)
    requires a.messages == Systems(r) + memory + sources + OldTurns(r)[a.folded..] + CurrentTurns(r)
    requires a.kept == |OldTurns(r)| - a.folded + |CurrentTurns(r)|
    requires a.components == Components(Cost(tokens, Systems(r)), Cost(tokens, memory), Cost(tokens, sources),
                                        Cost(tokens, OldTurns(r)[a.folded..]), Cost(tokens, CurrentTurns(r)), ToolCost(r.tools))
    requires a.used == 8 + a.components.system + a.components.memory + a.components.sources + a.components.history
                       + a.components.current + a.components.tools
    ensures Assembled(r, a) && Accounted(tokens, r, a) && a.used == RequestCost(tokens, a.messages, r.tools)
  {
    Parts(tokens, Systems(r), memory, sources, OldTurns(r)[a.folded..], CurrentTurns(r));
  }

  /** From the facts the loops leave to the choices as stated. */
  lemma {:induction false} Concluded(tokens: Tokens, r: Request, p: Policy, a: Prepared, next1: nat, used1: nat)
    requires ValidPolicy(p) && a.Ready? && Assembled(r, a) && Accounted(tokens, r, a) && a.folded <= next1 <= |OldTurns(r)|
    requires a.used == RequestCost(tokens, a.messages, r.tools) && a.used <= p.usable
    requires a.memoryOmitted <==> r.memory != "" && Mandatory(tokens, r) + Cost(tokens, MemoryPart(r.memory)) > p.usable
    requires used1 == Mandatory(tokens, r) + MemoryCost(tokens, r, a) + Cost(tokens, OldTurns(r)[next1..]) <= a.used
    requires |OldTurns(r)| - next1 <= Target(r, p)
    requires next1 > 0 && |OldTurns(r)| - next1 < Target(r, p) ==>
               used1 + MessageCost(tokens, OldTurns(r)[next1 - 1]) > p.usable
    requires forall i :: 0 <= i < |a.chosen| ==> TakenIfFits(tokens, References(r.sources), a.chosen, used1, p.usable, i)
    requires a.folded > 0 ==> a.used + MessageCost(tokens, OldTurns(r)[a.folded - 1]) > p.compressAt
    requires a.folded < next1 ==> a.used <= p.compressAt && used1 + MessageCost(tokens, OldTurns(r)[next1 - 1]) <= a.used
    ensures Prepares(tokens, r, p, a)
  {
    ChosenAsStated(tokens, r, p, a, next1, used1);
  }

  lemma {:induction false} ChosenAsStated(tokens: Tokens, r: Request, p: Policy, a: Prepared, next1: nat, used1: nat)
    requires ValidPolicy(p) && a.Ready? && Assembled(r, a) && Accounted(tokens, r, a) && a.folded <= next1 <= |OldTurns(r)|
    requires a.used == RequestCost(tokens, a.messages, r.tools) && a.used <= p.usable
    requires a.memoryOmitted <==> r.memory != "" && Mandatory(tokens, r) + Cost(tokens, MemoryPart(r.memory)) > p.usable
    requires used1 == Mandatory(tokens, r) + MemoryCost(tokens, r, a) + Cost(tokens, OldTurns(r)[next1..]) <= a.used
    requires |OldTurns(r)| - next1 <= Target(r, p)
    requires next1 > 0 && |OldTurns(r)| - next1 < Target(r, p) ==>
               used1 + MessageCost(tokens, OldTurns(r)[next1 - 1]) > p.usable
    requires forall i :: 0 <= i < |a.chosen| ==> TakenIfFits(tokens, References(r.sources), a.chosen, used1, p.usable, i)
    requires a.folded > 0 ==> a.used + MessageCost(tokens, OldTurns(r)[a.folded - 1]) > p.compressAt
    requires a.folded < next1 ==> a.used <= p.compressAt && used1 + MessageCost(tokens, OldTurns(r)[next1 - 1]) <= a.used
    ensures Chosen(tokens, r, p, a)
  {
    assert WindowOf(r, p, a.folded) == OldTurns(r)[next1..];
  }

  lemma {:induction false} Parts(tokens: Tokens, a: seq<Message>, b: seq<Message>, c: seq<Message>, d: seq<Message>, e: seq<Message>)
    ensures Cost(tokens, a + b + c + d + e) == Cost(tokens, a) + Cost(tokens, b) + Cost(tokens, c) + Cost(tokens, d) + Cost(tokens, e)
  {
    CostAppend(tokens, a, b);
    CostAppend(tokens, a + b, c);
    CostAppend(tokens, a + b + c, d);
    CostAppend(tokens, a + b + c + d, e);
  }

  // ---------------------------------------------------------------- what follows for the caller

  predicate NewestUser(turns: seq<Message>, k: nat) {
    k < |turns| && turns[k].role.User? && forall n :: k < n < |turns| ==> !turns[n].role.User?
  }

  /** The request ends with an unbroken suffix of the conversation, in which everything from the newest
      user message on is included. */
  lemma {:induction false} EndsWithNewestTurns(tokens: Tokens, r: Request, p: Policy, a: Prepared, k: nat)
    requires Prepares(tokens, r, p, a)
    ensures a.folded <= |Turns(r)| && a.kept == |Turns(r)| - a.folded <= |a.messages|
    ensures a.messages[|a.messages| - a.kept..] == Turns(r)[a.folded..]
    ensures NewestUser(Turns(r), k) ==> a.folded <= k
  {
    var turns := Turns(r);
    LastUserInside(turns);
    var start := CurrentStart(turns);
    var head := Systems(r) + (if a.memoryOmitted then [] else MemoryPart(r.memory)) + Select(References(r.sources), a.chosen);
    Rejoin(head, turns, start, a.folded);
  }

  lemma {:induction false} Rejoin(head: seq<Message>, turns: seq<Message>, start: nat, k: nat)
    requires k <= start <= |turns|
    ensures head + turns[..start][k..] + turns[start..] == head + turns[k..]
    ensures var all := head + turns[k..]; all[|all| - (|turns| - k)..] == turns[k..]
  {
    assert turns[..start][k..] + turns[start..] == turns[k..];
  }

  lemma {:induction false} SelectSnoc(tokens: Tokens, refs: seq<Message>, flags: seq<bool>)
    requires |flags| == |refs| && refs != []
    ensures var n := |refs| - 1;
            && Cost(tokens, refs) == Cost(tokens, refs[..n]) + MessageCost(tokens, refs[n])
            && Cost(tokens, Select(refs, flags)) ==
                 Cost(tokens, Select(refs[..n], flags[..n])) + if flags[n] then MessageCost(tokens, refs[n]) else 0
  {
    var n := |refs| - 1;
    assert refs == refs[..n] + [refs[n]];
    CostAppend(tokens, refs[..n], [refs[n]]);
    CostAppend(tokens, Select(refs[..n], flags[..n]), [refs[n]]);
    CostAppend(tokens, Select(refs[..n], flags[..n]), []);
  }

  lemma {:induction false} SelectGrows(tokens: Tokens, refs: seq<Message>, flags: seq<bool>, i: nat)
    requires |flags| == |refs| && i <= |refs|
    ensures Cost(tokens, Select(refs[..i], flags[..i])) <= Cost(tokens, Select(refs, flags))
    decreases |refs|
  {
    if i == |refs| {
      assert refs[..i] == refs && flags[..i] == flags;
    } else {
      var n := |refs| - 1;
      SelectSnoc(tokens, refs, flags);
      SelectGrows(tokens, refs[..n], flags[..n], i);
      assert refs[..n][..i] == refs[..i] && flags[..n][..i] == flags[..i];
    }
  }

  lemma {:induction false} SelectBelow(tokens: Tokens, refs: seq<Message>, flags: seq<bool>)
    requires |flags| == |refs|
    ensures Cost(tokens, Select(refs, flags)) <= Cost(tokens, refs)
    decreases |refs|
  {
    if refs != [] {
      SelectSnoc(tokens, refs, flags);
      SelectBelow(tokens, refs[..|refs| - 1], flags[..|refs| - 1]);
    }
  }

  lemma {:induction false} SelectMisses(tokens: Tokens, refs: seq<Message>, flags: seq<bool>, i: nat)
    requires |flags| == |refs| && i < |refs| && !flags[i]
    ensures Cost(tokens, Select(refs, flags)) + MessageCost(tokens, refs[i]) <= Cost(tokens, refs)
    decreases |refs|
  {
    var n := |refs| - 1;
    SelectSnoc(tokens, refs, flags);
    if i < n {
      SelectMisses(tokens, refs[..n], flags[..n], i);
    } else {
      SelectBelow(tokens, refs[..n], flags[..n]);
    }
  }

  /** A source that was left out would not fit beside the finished request either. */
  lemma {:induction false} OmittedSourceDoesNotFit(tokens: Tokens, r: Request, p: Policy, a: Prepared, i: nat)
    requires Prepares(tokens, r, p, a) && i < |a.chosen| && !a.chosen[i]
    ensures a.used + MessageCost(tokens, References(r.sources)[i]) > p.usable
  {
    var refs := References(r.sources);
    assert TakenIfFits(tokens, refs, a.chosen, BeforeSources(tokens, r, p, a), p.usable, i);
    SelectGrows(tokens, refs, a.chosen, i);
    WindowWithin(tokens, r, p, a);
  }

  lemma {:induction false} SuffixCost(tokens: Tokens, messages: seq<Message>, i: nat, j: nat)
    requires i <= j <= |messages|
    ensures Cost(tokens, messages[j..]) <= Cost(tokens, messages[i..])
    ensures i < j ==> Cost(tokens, messages[j..]) + MessageCost(tokens, messages[j - 1]) <= Cost(tokens, messages[i..])
    decreases j - i
  {
    if i < j {
      SuffixCost(tokens, messages, i, j - 1);
      assert messages[j - 1..][1..] == messages[j..];
    }
  }

  lemma {:induction false} WindowWithin(tokens: Tokens, r: Request, p: Policy, a: Prepared)
    requires a.Ready? && Assembled(r, a)
    ensures Cost(tokens, WindowOf(r, p, a.folded)) <= Cost(tokens, OldTurns(r)[a.folded..])
  {
    var older := OldTurns(r);
    SuffixCost(tokens, older, a.folded, |older| - Min(|older| - a.folded, Target(r, p)));
  }

  /** The cost of everything that was asked for. */
  function Total(tokens: Tokens, r: Request): nat {
    Mandatory(tokens, r) + Cost(tokens, MemoryPart(r.memory)) + Cost(tokens, References(r.sources)) + Cost(tokens, OldTurns(r))
  }

  predicate NothingDropped(a: Prepared) {
    a.Ready? && a.folded == 0 && !a.memoryOmitted && forall i :: 0 <= i < |a.chosen| ==> a.chosen[i]
  }

  /** Nothing is dropped exactly when everything fits the window and, if there are more old turns than
      the recent window takes, also stays within the soft threshold. */
  lemma {:induction false} NothingDroppedIff(tokens: Tokens, r: Request, p: Policy, a: Prepared)
    requires Prepares(tokens, r, p, a)
    ensures NothingDropped(a) <==>
            Total(tokens, r) <= p.usable && (|OldTurns(r)| <= Target(r, p) || Total(tokens, r) <= p.compressAt)
  {
    var older, refs := OldTurns(r), References(r.sources);
    if NothingDropped(a) {
      AllSelected(refs, a.chosen);
      assert older[0..] == older;
    } else if Total(tokens, r) <= p.usable && (|older| <= Target(r, p) || Total(tokens, r) <= p.compressAt) {
      DroppedOnlyIfOver(tokens, r, p, a);
    }
  }

  lemma {:induction false} AllSelected(refs: seq<Message>, flags: seq<bool>)
    requires |flags| == |refs| && forall i :: 0 <= i < |flags| ==> flags[i]
    ensures Select(refs, flags) == refs
    decreases |refs|
  {
    if refs != [] {
      AllSelected(refs[..|refs| - 1], flags[..|flags| - 1]);
    }
  }

  lemma {:induction false} FoldedOnlyIfOver(tokens: Tokens, r: Request, p: Policy, a: Prepared)
    requires Prepares(tokens, r, p, a)
    requires Total(tokens, r) <= p.usable && (|OldTurns(r)| <= Target(r, p) || Total(tokens, r) <= p.compressAt)
    ensures a.folded == 0
  {
    var older := OldTurns(r);
    SelectBelow(tokens, References(r.sources), a.chosen);
    WindowWithin(tokens, r, p, a);
    SuffixCost(tokens, older, 0, a.folded);
    assert older[0..] == older;
  }

  lemma {:induction false} DroppedOnlyIfOver(tokens: Tokens, r: Request, p: Policy, a: Prepared)
    requires Prepares(tokens, r, p, a)
    requires Total(tokens, r) <= p.usable && (|OldTurns(r)| <= Target(r, p) || Total(tokens, r) <= p.compressAt)
    ensures NothingDropped(a)
  {
    var older := OldTurns(r);
    FoldedOnlyIfOver(tokens, r, p, a);
    assert older[0..] == older;
    forall i | 0 <= i < |a.chosen| ensures a.chosen[i] {
      if !a.chosen[i] {
        OmittedSourceDoesNotFit(tokens, r, p, a, i);
        SelectMisses(tokens, References(r.sources), a.chosen, i);
      }
    }
  }

  // ---------------------------------------------------------------- the same in tokens and turns

  function TokenSum(tokens: Tokens, messages: seq<Message>): nat {
    if messages == [] then 0 else tokens(messages[0]) + TokenSum(tokens, messages[1..])
  }

  lemma {:induction false} CostInTokens(tokens: Tokens, messages: seq<Message>)
    ensures Cost(tokens, messages) == TokenSum(tokens, messages) + 8 * |messages|
    decreases |messages|
  {
    if messages != [] {
      CostInTokens(tokens, messages[1..]);
    }
  }

  /** A request costs 8 tokens, 8 more for each message beside its text, and 16 more for tools beside theirs,
      and that is within the window; it is refused only if the system messages and the current turn alone
      cost more than the window. */
  lemma {:induction false} CostsInTokens(tokens: Tokens, r: Request, p: Policy, a: Prepared)
    ensures var must := Systems(r) + CurrentTurns(r);
            Mandatory(tokens, r) ==
            8 + TokenSum(tokens, must) + 8 * |must| + if r.tools.Some? then r.tools.value + 16 else 0
    ensures Prepares(tokens, r, p, a) ==>
              && a.used == 8 + TokenSum(tokens, a.messages) + 8 * |a.messages| + (if r.tools.Some? then r.tools.value + 16 else 0)
              && a.used <= p.usable
  {
    CostAppend(tokens, Systems(r), CurrentTurns(r));
    CostInTokens(tokens, Systems(r) + CurrentTurns(r));
    if Prepares(tokens, r, p, a) {
      CostInTokens(tokens, a.messages);
    }
  }

  /** The current turn is everything from the newest user message on, or the last message if none is a user's. */
  lemma {:induction false} CurrentTurnIs(r: Request, k: nat)
    ensures NewestUser(Turns(r), k) ==> CurrentTurns(r) == Turns(r)[k..] && OldTurns(r) == Turns(r)[..k]
    ensures (forall i :: 0 <= i < |Turns(r)| ==> !Turns(r)[i].role.User?) ==> |CurrentTurns(r)| == if Turns(r) == [] then 0 else 1
  {
    LastUserInside(Turns(r));
  }

  /** Why an old turn is not in the request, the newest of those left out being `turn`: it would not fit under the
      soft threshold, and if fewer turns than wanted are kept, it would not fit into the window even without
      the sources. More old turns than wanted are kept only below the soft threshold. */
  lemma {:induction false} WhyFolded(tokens: Tokens, r: Request, p: Policy, a: Prepared)
    requires Prepares(tokens, r, p, a)
    ensures a.folded > 0 ==>
              && a.folded <= |Turns(r)|
              && var turn := tokens(Turns(r)[a.folded - 1]) + 8;
                 && a.used + turn > p.compressAt
                 && (a.kept < p.keepRecent ==> a.used - a.components.sources + turn > p.usable)
    ensures a.kept > p.keepRecent && a.kept > |CurrentTurns(r)| ==> a.used <= p.compressAt
  {
    var older := OldTurns(r);
    if a.folded > 0 {
      assert older[a.folded - 1] == Turns(r)[a.folded - 1];
    }
    if |older| - a.folded < Target(r, p) {
      assert WindowOf(r, p, a.folded) == older[a.folded..];
    }
  }

  /** The memory block is a system message of its own right after the system messages. */
  lemma {:induction false} MemoryStands(tokens: Tokens, r: Request, p: Policy, a: Prepared)
    requires Prepares(tokens, r, p, a) && r.memory != "" && !a.memoryOmitted
    ensures |Systems(r)| < |a.messages| && a.messages[|Systems(r)|] == Message(System, Memory(r.memory))
  {
    StandsAfter(Systems(r), Message(System, Memory(r.memory)), Select(References(r.sources), a.chosen), OldTurns(r)[a.folded..], CurrentTurns(r));
  }

  lemma {:induction false} StandsAfter(a: seq<Message>, m: Message, b: seq<Message>, c: seq<Message>, d: seq<Message>)
    ensures |a| < |a + [m] + b + c + d| && (a + [m] + b + c + d)[|a|] == m
  {
    var ab := a + [m] + b;
    assert ab[|a|] == m;
    assert (ab + c)[|a|] == ab[|a|];
  }

  // ---------------------------------------------------------------- the request against the history it was given

  /** Which messages are system or developer messages (`system`), or which are not. */
  function Roles(history: seq<Message>, system: bool): seq<bool> {
    seq(|history|, i requires 0 <= i < |history| => (history[i].role == System || history[i].role == Developer) == system)
  }

  lemma {:induction false} RolesFront(history: seq<Message>, system: bool)
    requires history != []
    ensures Roles(history, system) == [IsSystem(history[0]) == system] + Roles(history[1..], system)
  {
  }

  lemma {:induction false} SystemPlaces(history: seq<Message>) returns (places: seq<nat>)
    ensures Picks(Roles(history, true), places) && Takes(SystemsOf(history), history, places)
    decreases |history|
  {
    if history == [] {
      places := [];
    } else {
      var rest := SystemPlaces(history[1..]);
      places := Before(IsSystem(history[0]), rest);
      RolesFront(history, true);
      PicksBefore(IsSystem(history[0]), Roles(history[1..], true), rest);
      TakesBefore(IsSystem(history[0]), history[0], SystemsOf(history[1..]), history[1..], rest);
      assert history == [history[0]] + history[1..];
      assert [] + SystemsOf(history[1..]) == SystemsOf(history[1..]);
    }
  }

  lemma {:induction false} TurnPlaces(history: seq<Message>) returns (places: seq<nat>)
    ensures Picks(Roles(history, false), places) && Takes(TurnsOf(history), history, places)
    decreases |history|
  {
    if history == [] {
      places := [];
    } else {
      var rest := TurnPlaces(history[1..]);
      places := Before(!IsSystem(history[0]), rest);
      RolesFront(history, false);
      PicksBefore(!IsSystem(history[0]), Roles(history[1..], false), rest);
      TakesBefore(!IsSystem(history[0]), history[0], TurnsOf(history[1..]), history[1..], rest);
      assert history == [history[0]] + history[1..];
      assert [] + TurnsOf(history[1..]) == TurnsOf(history[1..]);
    }
  }

  lemma {:induction false} SplitKeepsAll(history: seq<Message>)
    ensures multiset(SystemsOf(history)) + multiset(TurnsOf(history)) == multiset(history)
    decreases |history|
  {
    if history != [] {
      SplitKeepsAll(history[1..]);
      assert history == [history[0]] + history[1..];
    }
  }

  /** Of the history it was given, a prepared request has all system and developer messages, in order, behind the
      system text; it ends with the last a.kept of the others, in order; and folded and kept are all of them. */
  lemma {:induction false} HistoryAccounted(tokens: Tokens, r: Request, p: Policy, a: Prepared)
    returns (systems: seq<nat>, turns: seq<nat>)
    requires Prepares(tokens, r, p, a)
    ensures Picks(Roles(r.history, true), systems) && Picks(Roles(r.history, false), turns)
    ensures var head := if r.system == "" then 0 else 1;
            && head + |systems| <= |a.messages| && a.kept <= |a.messages|
            && (r.system != "" ==> a.messages[0] == Message(System, Text(r.system)))
            && Takes(a.messages[head..head + |systems|], r.history, systems)
    ensures a.folded + a.kept == |turns| && Takes(a.messages[|a.messages| - a.kept..], r.history, turns[a.folded..])
    ensures NothingDropped(a) ==> multiset(r.history) <= multiset(a.messages)
  {
    systems := SystemPlaces(r.history);
    turns := TurnPlaces(r.history);
    EndsWithNewestTurns(tokens, r, p, a, 0);
    var rest := BeginsWithSystems(r, a);
    TakesFrom(TurnsOf(r.history), r.history, turns, a.folded);
    if NothingDropped(a) {
      AllThere(r, a, rest);
    }
  }

  lemma {:induction false} TakesFrom(part: seq<Message>, all: seq<Message>, places: seq<nat>, k: nat)
    requires Takes(part, all, places) && k <= |places|
    ensures Takes(part[k..], all, places[k..])
  {
  }

  function SystemText(r: Request): seq<Message> {
    if r.system == "" then [] else [Message(System, Text(r.system))]
  }

  lemma {:induction false} BeginsWithSystems(r: Request, a: Prepared) returns (rest: seq<Message>)
    requires a.Ready? && Assembled(r, a)
    ensures a.messages == SystemText(r) + SystemsOf(r.history) + rest
    ensures rest == (if a.memoryOmitted then [] else MemoryPart(r.memory)) + Select(References(r.sources), a.chosen)
                    + OldTurns(r)[a.folded..] + CurrentTurns(r)
    ensures var h, n := |SystemText(r)|, |SystemsOf(r.history)|;
            a.messages[..h] == SystemText(r) && a.messages[h..h + n] == SystemsOf(r.history)
  {
    var memory, sources := if a.memoryOmitted then [] else MemoryPart(r.memory), Select(References(r.sources), a.chosen);
    rest := memory + sources + OldTurns(r)[a.folded..] + CurrentTurns(r);
    Regroup5(Systems(r), memory, sources, OldTurns(r)[a.folded..], CurrentTurns(r));
    HeadSlice(SystemText(r), SystemsOf(r.history), rest);
  }

  lemma {:induction false} Regroup5(a: seq<Message>, b: seq<Message>, c: seq<Message>, d: seq<Message>, e: seq<Message>)
    ensures a + b + c + d + e == a + (b + c + d + e)
  {
  }

  lemma {:induction false} HeadSlice(head: seq<Message>, systems: seq<Message>, rest: seq<Message>)
    ensures var all := head + systems + rest; all[..|head|] == head && all[|head|..|head| + |systems|] == systems
  {
  }

  lemma {:induction false} AllThere(r: Request, a: Prepared, rest: seq<Message>)
    requires a.Ready? && Assembled(r, a) && NothingDropped(a)
    requires a.messages == SystemText(r) + SystemsOf(r.history) + rest
    requires rest == (if a.memoryOmitted then [] else MemoryPart(r.memory)) + Select(References(r.sources), a.chosen)
                     + OldTurns(r)[a.folded..] + CurrentTurns(r)
    ensures multiset(r.history) <= multiset(a.messages)
  {
    SplitKeepsAll(r.history);
    assert OldTurns(r)[0..] == OldTurns(r);
    assert TurnsOf(r.history) == OldTurns(r) + CurrentTurns(r);
  }

  function WithText(sources: seq<Source>): seq<bool> {
    seq(|sources|, i requires 0 <= i < |sources| => sources[i].text != "")
  }

  function Blocks(sources: seq<Source>): seq<Message> {
    seq(|sources|, i requires 0 <= i < |sources| =>
      Message(System, Reference(sources[i].id, sources[i].title, sources[i].text)))
  }

  /** The reference blocks are exactly those of the sources with text, in order. */
  lemma {:induction false} ReferencesAre(sources: seq<Source>) returns (places: seq<nat>)
    ensures Picks(WithText(sources), places) && Takes(References(sources), Blocks(sources), places)
    decreases |sources|
  {
    if sources == [] {
      places := [];
    } else {
      var w := sources[0].text != "";
      var rest := ReferencesAre(sources[1..]);
      places := Before(w, rest);
      assert WithText(sources) == [w] + WithText(sources[1..]);
      assert Blocks(sources) == [Blocks(sources)[0]] + Blocks(sources[1..]);
      PicksBefore(w, WithText(sources[1..]), rest);
      TakesBefore(w, Blocks(sources)[0], References(sources[1..]), Blocks(sources[1..]), rest);
      assert [] + References(sources[1..]) == References(sources[1..]);
    }
  }
}
