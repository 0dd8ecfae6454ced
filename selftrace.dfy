/**
 * Filtering the tracer's own traffic out of tracing (`src/fixes/index.ts`):
 * the host test `toSkip`, the agent-host pattern it builds from the
 * environment, and `fixTraces`, which replaces each already-instrumented
 * library method by a routing wrapper while keeping its unwrapping chain.
 */
module SelfTrace {
  import opened Wrappers

  /**
   * The environment as the module reads it once at load time: the parsed
   * `DISABLE_DD_SELF_TRACES` number and `DD_TRACE_AGENT_HOSTNAME` (`None`
   * when unset).
   */
  datatype Config = Config(disableSelfTraces: int, agentHostname: Option<string>)

  /** `process.env.DD_TRACE_AGENT_HOSTNAME + ''`: an unset variable becomes "undefined". */
  function AgentHostname(cfg: Config): (h: string)
    ensures cfg.agentHostname.None? ==> h == "undefined"
    ensures cfg.agentHostname.Some? ==> h == cfg.agentHostname.value
  {
    cfg.agentHostname.GetOr("undefined")
  }

  const DatadogHost := "datadoghq.com"

  /** `sub` occurs in `s` at position `i`. */
  predicate SliceAt(s: string, sub: string, i: int)
  {
    0 <= i && i + |sub| <= |s| && s[i..i + |sub|] == sub
  }

  /** `sub` occurs in `s` (what `/datadoghq\.com/.test(s)` decides). */
  predicate Contains(s: string, sub: string)
  {
    exists i | 0 <= i <= |s| :: SliceAt(s, sub, i)
  }

  /** One position of a regular expression built from a hostname. */
  datatype PatternChar = Exact(c: char) | AnyChar

  /** Every '.' becomes the regex wildcard; every other character stands for itself. */
  function Unescaped(s: string): (p: seq<PatternChar>)
    ensures |p| == |s|
    ensures forall k :: 0 <= k < |s| ==> p[k] == if s[k] == '.' then AnyChar else Exact(s[k])
  {
    if s == [] then [] else [if s[0] == '.' then AnyChar else Exact(s[0])] + Unescaped(s[1..])
  }

  /**
   * `hostname.replace(/\./, '\\.')` read as a pattern: the non-global replace
   * escapes only the first '.', so every later '.' stays a wildcard.
   */
  function AgentPattern(hostname: string): (p: seq<PatternChar>)
    ensures |p| == |hostname|
    ensures forall k :: 0 <= k < |hostname| ==>
      p[k] == if hostname[k] == '.' && '.' in hostname[..k] then AnyChar else Exact(hostname[k])
  {
    if hostname == [] then []
    else if hostname[0] == '.' then
      var rest := Unescaped(hostname[1..]);
      assert forall k :: 1 <= k < |hostname| ==> '.' in hostname[..k] by {
        forall k | 1 <= k < |hostname| ensures '.' in hostname[..k] {
          assert hostname[..k][0] == '.';
        }
      }
      [Exact('.')] + rest
    else
      var rest := AgentPattern(hostname[1..]);
      assert forall k :: 1 <= k < |hostname| ==> ('.' in hostname[..k] <==> '.' in hostname[1..][..k - 1]) by {
        forall k | 1 <= k < |hostname| ensures '.' in hostname[..k] <==> '.' in hostname[1..][..k - 1] {
          assert hostname[..k] == [hostname[0]] + hostname[1..][..k - 1];
        }
      }
      [Exact(hostname[0])] + rest
  }

  /** The regex wildcard matches any character but a line terminator. */
  predicate CharMatches(pc: PatternChar, c: char)
  {
    match pc
    case Exact(e) => e == c
    case AnyChar => c != '\n' && c != '\r' && c != '\U{2028}' && c != '\U{2029}'
  }

  predicate MatchesAt(p: seq<PatternChar>, s: string, i: int)
  {
    0 <= i && i + |p| <= |s| && forall k :: 0 <= k < |p| ==> CharMatches(p[k], s[i + k])
  }

  /** `RegExp.prototype.test` for a pattern of plain characters and wildcards. */
  predicate Occurs(p: seq<PatternChar>, s: string)
  {
    exists i :: 0 <= i <= |s| - |p| && MatchesAt(p, s, i)
  }

  /** `toSkip(hostOrUrl)`: the Datadog SaaS host or the agent host appears in it. */
  predicate ToSkip(cfg: Config, hostOrUrl: string)
  {
    Contains(hostOrUrl, DatadogHost) || Occurs(AgentPattern(AgentHostname(cfg)), hostOrUrl)
  }

  /** The agent host itself is always skipped: its pattern matches it at position 0. */
  lemma AgentHostIsSkipped(cfg: Config)
    ensures ToSkip(cfg, AgentHostname(cfg))
  {
    var h := AgentHostname(cfg);
    var p := AgentPattern(h);
    assert forall k :: 0 <= k < |p| ==> CharMatches(p[k], h[k]);
    assert MatchesAt(p, h, 0);
  }

  /** Any text containing the agent host (a URL, `host:port`) is skipped. */
  lemma HostInTextIsSkipped(cfg: Config, s: string, i: nat)
    requires i + |AgentHostname(cfg)| <= |s| && s[i..i + |AgentHostname(cfg)|] == AgentHostname(cfg)
    ensures ToSkip(cfg, s)
  {
    var h := AgentHostname(cfg);
    var p := AgentPattern(h);
    forall k | 0 <= k < |p| ensures CharMatches(p[k], s[i + k]) {
      assert s[i + k] == s[i..i + |h|][k];
    }
    assert MatchesAt(p, s, i);
  }

  /** With the variable unset the pattern is `undefined`, which an undefined host renders as. */
  lemma UnsetAgentHostSkipsUndefined(cfg: Config, host: Arg)
    requires cfg.agentHostname.None? && host == Undefined
    ensures ToSkip(cfg, JsString(host))
  {
    AgentHostIsSkipped(cfg);
  }

  /** An empty hostname builds the empty pattern, which every text matches. */
  lemma EmptyAgentHostSkipsAll(cfg: Config, s: string)
    requires cfg.agentHostname == Some("")
    ensures ToSkip(cfg, s)
  {
    assert MatchesAt(AgentPattern(""), s, 0);
  }

  /**
   * Only the first dot of the agent host is literal: the host with any later
   * dot replaced by another character (not a line terminator, and a single
   * UTF-16 code unit) is skipped too.
   */
  lemma LaterDotIsWildcard(cfg: Config, i: nat, c: char)
    requires i < |AgentHostname(cfg)| && AgentHostname(cfg)[i] == '.' && '.' in AgentHostname(cfg)[..i]
    requires c != '\n' && c != '\r' && c != '\U{2028}' && c != '\U{2029}'
    requires c as int < 0x1_0000
    ensures ToSkip(cfg, AgentHostname(cfg)[i := c])
  {
    var h := AgentHostname(cfg);
    var p := AgentPattern(h);
    var s := h[i := c];
    forall k | 0 <= k < |p| ensures CharMatches(p[k], s[k]) {
      if k == i {
        assert p[k] == AnyChar;
      } else {
        assert s[k] == h[k];
      }
    }
    assert MatchesAt(p, s, 0);
  }

  /** An argument as the patched functions see it. */
  datatype Arg =
    | Str(s: string)
    | Num(n: int)
    | Obj(host: Option<string>, hostname: Option<string>)   // a plain options object
    | Callback(source: string)
    | Null
    | Undefined

  /** `args[i]`, `undefined` past the end. */
  function ArgAt(args: seq<Arg>, i: nat): (a: Arg)
    ensures i < |args| ==> a == args[i]
    ensures i >= |args| ==> a == Undefined
  {
    if i < |args| then args[i] else Undefined
  }

  /** An optional string property read: a missing one is `undefined`. */
  function PropertyValue(p: Option<string>): Arg
  {
    match p
    case Some(s) => Str(s)
    case None => Undefined
  }

  function DigitChar(d: nat): char
    requires d < 10
  {
    "0123456789"[d]
  }

  function NatToString(n: nat): (s: string)
    ensures |s| > 0
    decreases n
  {
    if n < 10 then [DigitChar(n)] else NatToString(n / 10) + [DigitChar(n % 10)]
  }

  /** `String(a)`, the conversion `RegExp.prototype.test` applies to its argument. */
  function JsString(a: Arg): string
  {
    match a
    case Str(s) => s
    case Num(n) => if n < 0 then "-" + NatToString(-n) else NatToString(n)
    case Obj(_, _) => "[object Object]"
    case Callback(source) => source
    case Null => "null"
    case Undefined => "undefined"
  }

  /** JavaScript truthiness. */
  predicate Truthy(a: Arg)
  {
    match a
    case Str(s) => s != ""
    case Num(n) => n != 0
    case Obj(_, _) => true
    case Callback(_) => true
    case Null => false
    case Undefined => false
  }

  /**
   * A function object with the properties dd-trace's shimmer puts on a
   * wrapper: `__wrapped`, `__original` and `__unwrap` (`None` when unset).
   */
  datatype Fn = Fn(code: Code, wrapped: bool, original: Option<Fn>, unwrap: Option<Fn>)

  /** What a function does: a library or tracer function, or one of the routing wrappers. */
  datatype Code =
    | Native(name: string)
    | DnsCheck(target: Target, instrumented: Fn, original: Fn)
    | NetCheck(instrumented: Fn, original: Fn)
    | HttpCheck(instrumented: Fn, original: Fn)

  /** The `this` a routing wrapper passes on: the patch descriptor, or its own receiver. */
  datatype Receiver = Descriptor(target: Target) | CallerThis

  /** `f.apply(receiver, args)`: the call a routing wrapper makes. */
  datatype Call = Call(callee: Fn, receiver: Receiver, args: seq<Arg>)

  /** A function object freshly created by a patcher, before `fixTraces` sets its properties. */
  function NewFunction(code: Code): (f: Fn)
    ensures f.code == code && !f.wrapped && f.original.None? && f.unwrap.None?
  {
    Fn(code, false, None, None)
  }

  /** `DDPatchTarget`: an object and the names of the methods to re-patch on it. */
  datatype Target = Target(owner: JsObject, methodNames: seq<string>)

  /** A module or prototype whose function-valued properties are rewritten in place. */
  class JsObject {
    var props: map<string, Fn>

    constructor (props: map<string, Fn>)
      ensures this.props == props
    {
      this.props := props;
    }
  }

  /** `DDRePatchImplementation`: `(target, methodName, method, original) => replacement`. */
  type Patcher = (Target, string, Fn, Fn) -> Fn

  /** `method.__original || method`: the bottom of the wrapping chain. */
  function Origin(instrumented: Fn): (o: Fn)
    ensures instrumented.original.Some? ==> o == instrumented.original.value
    ensures instrumented.original.None? ==> o == instrumented
  {
    if instrumented.original.Some? then instrumented.original.value else instrumented
  }

  /**
   * What `fixTraces` stores for a wrapped `method`: the patcher's function
   * with `__wrapped` set, `__original` the bottom of the chain, and the old
   * method's `__unwrap`.
   */
  function Replacement(t: Target, name: string, instrumented: Fn, patcher: Patcher): (r: Fn)
    ensures r.code == patcher(t, name, instrumented, Origin(instrumented)).code
    ensures r.wrapped && r.original == Some(Origin(instrumented)) && r.unwrap == instrumented.unwrap
    ensures Origin(r) == Origin(instrumented)
  {
    patcher(t, name, instrumented, Origin(instrumented)).(wrapped := true, original := Some(Origin(instrumented)), unwrap := instrumented.unwrap)
  }

  /** One iteration of the inner loop: skip a missing or unwrapped method, replace a wrapped one. */
  function FixStep(props: map<string, Fn>, t: Target, name: string, patcher: Patcher): map<string, Fn>
  {
    if name in props && props[name].wrapped then props[name := Replacement(t, name, props[name], patcher)] else props
  }

  /**
   * The inner loop over `methodNames` on one object. No property appears or
   * disappears; properties not listed, and listed ones that are not wrapped,
   * keep their value; a wrapped one stays wrapped, keeps its `__unwrap` and
   * the bottom of its chain, and if listed gets that bottom as `__original`.
   */
  function FixProps(props: map<string, Fn>, t: Target, names: seq<string>, patcher: Patcher): (r: map<string, Fn>)
    ensures r.Keys == props.Keys
    ensures forall k :: k in props && k !in names ==> r[k] == props[k]
    ensures forall k :: k in props && !props[k].wrapped ==> r[k] == props[k]
    ensures forall k :: k in props && props[k].wrapped ==>
      r[k].wrapped && Origin(r[k]) == Origin(props[k]) && r[k].unwrap == props[k].unwrap
    ensures forall k :: k in props && props[k].wrapped && k in names ==> r[k].original == Some(Origin(props[k]))
    decreases |names|
  {
    if |names| == 0 then props
    else FixStep(FixProps(props, t, names[..|names| - 1], patcher), t, names[|names| - 1], patcher)
  }

  /** A wrapped method that is listed once ends up as exactly its replacement. */
  lemma {:induction false} FixPropsReplaces(props: map<string, Fn>, t: Target, names: seq<string>, patcher: Patcher, k: string)
    requires k in props && props[k].wrapped
    requires k in names && forall i, j :: 0 <= i < j < |names| ==> names[i] != names[j]
    ensures FixProps(props, t, names, patcher)[k] == Replacement(t, k, props[k], patcher)
    decreases |names|
  {
    var front := names[..|names| - 1];
    if names[|names| - 1] == k {
      assert k !in front;
    } else {
      assert k in front;
      FixPropsReplaces(props, t, front, patcher, k);
    }
  }

  /** Re-running the rewrite keeps every wrapped method's `__original` where the first run put it. */
  lemma FixTwiceKeepsOriginal(props: map<string, Fn>, t: Target, names: seq<string>, patcher: Patcher)
    ensures var once := FixProps(props, t, names, patcher);
      var twice := FixProps(once, t, names, patcher);
      forall k :: k in props && props[k].wrapped ==> twice[k].original == once[k].original
  {
  }

  /** The objects named by a target list. */
  function Objects(targets: seq<Target>): set<JsObject>
  {
    set i | 0 <= i < |targets| :: targets[i].owner
  }

  /** The properties of each object of `objs`. */
  function Tables(objs: set<JsObject>): map<JsObject, map<string, Fn>>
    reads objs
  {
    map o | o in objs :: o.props
  }

  /** The outer loop over the target list, applied to a snapshot of the objects' properties. */
  function ApplyTargets(tables: map<JsObject, map<string, Fn>>, targets: seq<Target>, patcher: Patcher)
    : (r: map<JsObject, map<string, Fn>>)
    requires Objects(targets) <= tables.Keys
    ensures r.Keys == tables.Keys
    ensures forall o :: o in tables && o !in Objects(targets) ==> r[o] == tables[o]
    decreases |targets|
  {
    if |targets| == 0 then tables
    else
      var front := targets[..|targets| - 1];
      assert Objects(front) <= Objects(targets);
      var prev := ApplyTargets(tables, front, patcher);
      var t := targets[|targets| - 1];
      prev[t.owner := FixProps(prev[t.owner], t, t.methodNames, patcher)]
  }

  /** The outcome on the target objects depends only on their own starting properties. */
  lemma {:induction false} ApplyTargetsLocal(a: map<JsObject, map<string, Fn>>, b: map<JsObject, map<string, Fn>>,
                                             targets: seq<Target>, patcher: Patcher)
    requires Objects(targets) <= a.Keys && Objects(targets) <= b.Keys
    requires forall o :: o in Objects(targets) ==> a[o] == b[o]
    ensures forall o :: o in Objects(targets) ==> ApplyTargets(a, targets, patcher)[o] == ApplyTargets(b, targets, patcher)[o]
    decreases |targets|
  {
    if |targets| > 0 {
      var front := targets[..|targets| - 1];
      assert Objects(front) <= Objects(targets);
      ApplyTargetsLocal(a, b, front, patcher);
      var t := targets[|targets| - 1];
      var pa := ApplyTargets(a, front, patcher);
      var pb := ApplyTargets(b, front, patcher);
      assert pa[t.owner] == pb[t.owner];
    }
  }

  /** Some target of the list names `k` on object `o`. */
  predicate Listed(targets: seq<Target>, o: JsObject, k: string)
  {
    exists i :: 0 <= i < |targets| && targets[i].owner == o && k in targets[i].methodNames
  }

  /** The outer loop neither adds nor removes a property of any object. */
  lemma {:induction false} ApplyTargetsKeepsKeys(tables: map<JsObject, map<string, Fn>>, targets: seq<Target>,
                                                 patcher: Patcher, o: JsObject)
    requires Objects(targets) <= tables.Keys && o in tables
    ensures ApplyTargets(tables, targets, patcher)[o].Keys == tables[o].Keys
    decreases |targets|
  {
    if |targets| > 0 {
      var front := targets[..|targets| - 1];
      assert Objects(front) <= Objects(targets);
      ApplyTargetsKeepsKeys(tables, front, patcher, o);
    }
  }

  /**
   * Over a whole target list: a property that no target lists for its
   * object, or that is not wrapped, keeps its value.
   */
  lemma {:induction false} ApplyTargetsLeavesUnlisted(tables: map<JsObject, map<string, Fn>>, targets: seq<Target>,
                                                      patcher: Patcher, o: JsObject, k: string)
    requires Objects(targets) <= tables.Keys && o in tables && k in tables[o]
    requires !Listed(targets, o, k) || !tables[o][k].wrapped
    ensures k in ApplyTargets(tables, targets, patcher)[o]
    ensures ApplyTargets(tables, targets, patcher)[o][k] == tables[o][k]
    decreases |targets|
  {
    ApplyTargetsKeepsKeys(tables, targets, patcher, o);
    if |targets| > 0 {
      var front := targets[..|targets| - 1];
      assert Objects(front) <= Objects(targets);
      assert !Listed(front, o, k) || !tables[o][k].wrapped by {
        if Listed(front, o, k) {
          var i :| 0 <= i < |front| && front[i].owner == o && k in front[i].methodNames;
          assert targets[i] == front[i];
        }
      }
      ApplyTargetsLeavesUnlisted(tables, front, patcher, o, k);
      ApplyTargetsKeepsKeys(tables, front, patcher, o);
      var t := targets[|targets| - 1];
      if t.owner == o && k in t.methodNames {
        assert Listed(targets, o, k);
      }
    }
  }

  /**
   * Over a whole target list: a wrapped property stays wrapped, keeps its
   * `__unwrap` and the bottom of its chain.
   */
  lemma {:induction false} ApplyTargetsKeepsOrigin(tables: map<JsObject, map<string, Fn>>, targets: seq<Target>,
                                                   patcher: Patcher, o: JsObject, k: string)
    requires Objects(targets) <= tables.Keys && o in tables && k in tables[o] && tables[o][k].wrapped
    ensures var r := ApplyTargets(tables, targets, patcher)[o];
      k in r && r[k].wrapped && Origin(r[k]) == Origin(tables[o][k]) && r[k].unwrap == tables[o][k].unwrap
    decreases |targets|
  {
    ApplyTargetsKeepsKeys(tables, targets, patcher, o);
    if |targets| > 0 {
      var front := targets[..|targets| - 1];
      assert Objects(front) <= Objects(targets);
      ApplyTargetsKeepsOrigin(tables, front, patcher, o, k);
      ApplyTargetsKeepsKeys(tables, front, patcher, o);
    }
  }

  /**
   * Over a whole target list: a wrapped property that some target lists for
   * its object ends with the bottom of its chain as `__original`.
   */
  lemma {:induction false} ApplyTargetsSetsOriginal(tables: map<JsObject, map<string, Fn>>, targets: seq<Target>,
                                                    patcher: Patcher, o: JsObject, k: string)
    requires Objects(targets) <= tables.Keys && o in tables && k in tables[o] && tables[o][k].wrapped
    requires Listed(targets, o, k)
    ensures var r := ApplyTargets(tables, targets, patcher)[o];
      k in r && r[k].original == Some(Origin(tables[o][k]))
    decreases |targets|
  {
    ApplyTargetsKeepsKeys(tables, targets, patcher, o);
    var front := targets[..|targets| - 1];
    assert Objects(front) <= Objects(targets);
    var t := targets[|targets| - 1];
    ApplyTargetsKeepsOrigin(tables, front, patcher, o, k);
    ApplyTargetsKeepsKeys(tables, front, patcher, o);
    if !(t.owner == o && k in t.methodNames) {
      var i :| 0 <= i < |targets| && targets[i].owner == o && k in targets[i].methodNames;
      assert i < |front| && front[i] == targets[i];
      ApplyTargetsSetsOriginal(tables, front, patcher, o, k);
    }
  }

  /**
   * Running `fixTraces` a second time over the same list leaves every listed
   * wrapped method's `__original` where the first run put it: the chain
   * bottom is never replaced by a wrapper.
   */
  lemma ApplyTwiceKeepsOriginal(tables: map<JsObject, map<string, Fn>>, targets: seq<Target>,
                                patcher: Patcher, o: JsObject, k: string)
    requires Objects(targets) <= tables.Keys && o in tables && k in tables[o] && tables[o][k].wrapped
    requires Listed(targets, o, k)
    ensures var once := ApplyTargets(tables, targets, patcher);
      var twice := ApplyTargets(once, targets, patcher);
      k in twice[o] && k in once[o] && twice[o][k].original == once[o][k].original
  {
    var once := ApplyTargets(tables, targets, patcher);
    ApplyTargetsKeepsOrigin(tables, targets, patcher, o, k);
    ApplyTargetsSetsOriginal(tables, targets, patcher, o, k);
    ApplyTargetsKeepsOrigin(once, targets, patcher, o, k);
    ApplyTargetsSetsOriginal(once, targets, patcher, o, k);
  }

  /**
   * The inner loop of `fixTraces` over one target: each listed name that holds
   * a wrapped method gets its replacement; the object's other properties and
   * every other object are left as they were.
   */
  method FixTarget(target: Target, patcher: Patcher)
    modifies target.owner
    ensures target.owner.props == FixProps(old(target.owner.props), target, target.methodNames, patcher)
  {
    var owner := target.owner;
    var methodNames := target.methodNames;
    ghost var start := owner.props;
    var j := 0;
    while j < |methodNames|
      invariant 0 <= j <= |methodNames|
      invariant owner.props == FixProps(start, target, methodNames[..j], patcher)
    {
      var methodName := methodNames[j];
      if methodName in owner.props && owner.props[methodName].wrapped {
        var instrumented := owner.props[methodName];
        var original := if instrumented.original.Some? then instrumented.original.value else instrumented;
        owner.props := owner.props[methodName := patcher(target, methodName, instrumented, original)];
        owner.props := owner.props[methodName := owner.props[methodName].(wrapped := true)];
        owner.props := owner.props[methodName := owner.props[methodName].(original := Some(original))];
        owner.props := owner.props[methodName := owner.props[methodName].(unwrap := instrumented.unwrap)];
      }
      assert methodNames[..j + 1][..j] == methodNames[..j];
      j := j + 1;
    }
    assert methodNames[..j] == methodNames;
  }

  /**
   * `fixTraces(targets, patcher)`: nothing happens when self traces are not
   * disabled; otherwise every target object ends with the properties the
   * nested loops compute, and no other object is touched.
   */
  method FixTraces(cfg: Config, targets: seq<Target>, patcher: Patcher)
    modifies Objects(targets)
    ensures cfg.disableSelfTraces == 0 ==> forall o :: o in Objects(targets) ==> o.props == old(o.props)
    ensures cfg.disableSelfTraces != 0 ==>
      forall o :: o in Objects(targets) ==> o.props == ApplyTargets(old(Tables(Objects(targets))), targets, patcher)[o]
  {
    if cfg.disableSelfTraces == 0 {
      return;
    }
    ghost var start := Tables(Objects(targets));
    var i := 0;
    while i < |targets|
      invariant 0 <= i <= |targets|
      invariant Objects(targets[..i]) <= Objects(targets)
      invariant forall o :: o in Objects(targets) ==> o.props == ApplyTargets(start, targets[..i], patcher)[o]
    {
      var target := targets[i];
      ghost var before := ApplyTargets(start, targets[..i], patcher);
      assert target.owner in Objects(targets);
      FixTarget(target, patcher);
      assert targets[..i + 1][..i] == targets[..i];
      assert Objects(targets[..i + 1]) <= Objects(targets);
      i := i + 1;
    }
    assert targets[..i] == targets;
  }
}
