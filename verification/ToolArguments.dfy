/** Checking the arguments of a tool against its schema, and what is kept of them. */
module ToolArguments {
  import opened Collections
  import opened Governance

  /** A tool manifest: `properties` maps each declared argument to its declared type. */
  datatype Tool = Tool(
    id: Text,
    properties: map<Text, Option<Text>>,
    required: set<Text>,
    additional: bool,
    risk: Text,
    sideEffect: Text,
    mode: Text)

  type Registry = map<Text, Tool>

  datatype ToolError = UnknownTool | MissingArgument | BadArgument

  /** What validation returns: the arguments kept, and those dropped with a warning. */
  datatype Checked = Checked(arguments: Args, dropped: set<Text>)

  predicate Contains(s: Text, part: Text) {
    part <= s || (s != "" && Contains(s[1..], part))
  }

  lemma {:induction false} ContainsIff(s: Text, part: Text)
    ensures Contains(s, part) <==> exists i :: 0 <= i <= |s| && part <= s[i..]
  {
    if part <= s {
      assert part <= s[0..];
    } else if s != "" {
      ContainsIff(s[1..], part);
      if Contains(s, part) {
        var i :| 0 <= i <= |s[1..]| && part <= s[1..][i..];
        assert s[1..][i..] == s[i + 1..];
      }
      if i :| 0 <= i <= |s| && part <= s[i..] {
        assert i > 0 by { assert s[0..] == s; }
        assert s[1..][i - 1..] == s[i..];
      }
    }
  }

  predicate Sensitive(key: Text) {
    var k := Lower(key);
    Contains(k, "token") || Contains(k, "password") || Contains(k, "secret") || Contains(k, "key")
      || Contains(k, "credential")
  }

  predicate MatchesType(v: Value, expected: Text) {
    if expected == "string" then v.Str?
    else if expected == "integer" then v.Int?
    else if expected == "number" then v.Int? || v.Real?
    else if expected == "boolean" then v.Bool?
    else if expected == "array" then v.List?
    else if expected == "object" then v.Object?
    else true
  }

  predicate Declared(tool: Tool, key: Text, v: Value)
    requires key in tool.properties
  {
    Truthy(tool.properties[key]) ==> MatchesType(v, tool.properties[key].value)
  }

  predicate Admitted(tool: Tool, key: Text, v: Value) {
    if key in tool.properties then Declared(tool, key, v) else tool.additional || Sensitive(key)
  }

  predicate Keeps(tool: Tool, key: Text) {
    key in tool.properties || tool.additional
  }

  function SanitizeValue(key: Text, v: Value): Value {
    if Sensitive(key) then Str("***")
    else if v.Str? then Str(Short(v.s, 240))
    else if v.List? || v.Object? then Str(Short(v.shown, 240))
    else v
  }

  function Sanitize(args: Args): Args {
    map k | k in args :: SanitizeValue(k, args[k])
  }

  function Validate(registry: Registry, toolId: Text, args: Args): Outcome<Checked, ToolError> {
    if toolId !in registry then Raised(UnknownTool)
    else
      var tool := registry[toolId];
      if !(tool.required <= args.Keys) then Raised(MissingArgument)
      else if exists k :: k in args && !Admitted(tool, k, args[k]) then Raised(BadArgument)
      else Ok(Checked(Sanitize(map k | k in args && Keeps(tool, k) :: args[k]), set k | k in args && !Keeps(tool, k)))
  }

  // ---------------------------------------------------------- in-place form

  method SanitizeArguments(args: Args) returns (kept: Args)
    ensures kept == Sanitize(args)
  {
    kept := map[];
    var left := args.Keys;
    while left != {}
      invariant left <= args.Keys && kept.Keys == args.Keys - left
      invariant forall k :: k in kept ==> kept[k] == SanitizeValue(k, args[k])
      decreases left
    {
      var k :| k in left;
      left := left - {k};
      kept := kept[k := SanitizeValue(k, args[k])];
    }
  }

  /** The loop stops at the first bad argument it meets; the verdict and what is kept do
      not depend on the order it takes them in. */
  method ValidateToolArguments(registry: Registry, toolId: Text, args: Args) returns (out: Outcome<Checked, ToolError>)
    ensures out == Validate(registry, toolId, args)
  {
    if toolId !in registry { return Raised(UnknownTool); }
    var tool := registry[toolId];
    if !(tool.required <= args.Keys) { return Raised(MissingArgument); }
    var allowed: Args := map[];
    var dropped: set<Text> := {};
    var left := args.Keys;
    while left != {}
      invariant left <= args.Keys
      invariant allowed == map k | k in args && k !in left && Keeps(tool, k) :: args[k]
      invariant dropped == set k | k in args && k !in left && !Keeps(tool, k)
      invariant forall k :: k in args && k !in left ==> Admitted(tool, k, args[k])
      decreases left
    {
      var k :| k in left;
      left := left - {k};
      if k !in tool.properties && !tool.additional {
        if !Sensitive(k) { return Raised(BadArgument); }
        dropped := dropped + {k};
      } else {
        if k in tool.properties && !Declared(tool, k, args[k]) { return Raised(BadArgument); }
        allowed := allowed[k := args[k]];
      }
    }
    assert allowed == map k | k in args && Keeps(tool, k) :: args[k];
    assert dropped == set k | k in args && !Keeps(tool, k);
    var kept := SanitizeArguments(allowed);
    return Ok(Checked(kept, dropped));
  }

  // ------------------------------------------------------------- properties

  ghost predicate Holds(text: Text, word: Text) {
    exists i :: 0 <= i <= |text| && word <= text[i..]
  }

  /** A key is sensitive when one of five words is in it, in any case. */
  ghost predicate Secret(key: Text) {
    || Holds(Lower(key), "token") || Holds(Lower(key), "password") || Holds(Lower(key), "secret")
    || Holds(Lower(key), "key") || Holds(Lower(key), "credential")
  }

  lemma SecretIff(key: Text)
    ensures Sensitive(key) <==> Secret(key)
  {
    ContainsIff(Lower(key), "token");
    ContainsIff(Lower(key), "password");
    ContainsIff(Lower(key), "secret");
    ContainsIff(Lower(key), "key");
    ContainsIff(Lower(key), "credential");
  }

  /** What is kept of an argument: nothing of a sensitive one but stars; 240 characters of a
      text or of what a nested value shows; anything else as it is. */
  ghost predicate KeptAs(key: Text, v: Value, kept: Value) {
    if Secret(key) then kept == Str("***")
    else
      match v
      case Str(s) => kept.Str? && kept.s <= s && |kept.s| == if |s| <= 240 then |s| else 240
      case List(s) => kept.Str? && kept.s <= s && |kept.s| == if |s| <= 240 then |s| else 240
      case Object(s) => kept.Str? && kept.s <= s && |kept.s| == if |s| <= 240 then |s| else 240
      case _ => kept == v
  }

  lemma SanitizeExactly(args: Args)
    ensures Sanitize(args).Keys == args.Keys && forall k :: k in args ==> KeptAs(k, args[k], Sanitize(args)[k])
  {
    forall k | k in args ensures KeptAs(k, args[k], Sanitize(args)[k]) { SecretIff(k); }
  }

  /** The value is of the declared type; a type that is not one of the six allows any. */
  ghost predicate OfType(v: Value, expected: Text) {
    && (expected == "string" ==> v.Str?) && (expected == "integer" ==> v.Int?)
    && (expected == "number" ==> v.Int? || v.Real?) && (expected == "boolean" ==> v.Bool?)
    && (expected == "array" ==> v.List?) && (expected == "object" ==> v.Object?)
  }

  /** The tool takes the argument: it is declared, and of its type; or it is not, and the
      tool takes others; or it is sensitive, and will be dropped. */
  ghost predicate TakesArgument(tool: Tool, key: Text, v: Value) {
    if key in tool.properties
    then tool.properties[key].Some? && tool.properties[key].value != "" ==> OfType(v, tool.properties[key].value)
    else tool.additional || Secret(key)
  }

  /** Why arguments are refused, in the order it is looked at, and what is kept of them
      otherwise: what is declared, and the rest when the tool takes others. */
  lemma ValidateExactly(registry: Registry, toolId: Text, args: Args)
    ensures var out := Validate(registry, toolId, args);
            if toolId !in registry then out == Raised(UnknownTool)
            else
              var tool := registry[toolId];
              if exists k :: k in tool.required && k !in args then out == Raised(MissingArgument)
              else if exists k :: k in args && !TakesArgument(tool, k, args[k]) then out == Raised(BadArgument)
              else
                && out.Ok?
                && (forall k :: k in out.value.arguments <==> k in args && (k in tool.properties || tool.additional))
                && (forall k :: k in out.value.arguments ==> KeptAs(k, args[k], out.value.arguments[k]))
                && forall k :: k in out.value.dropped <==> k in args && k !in tool.properties && !tool.additional
  {
    if toolId in registry {
      var tool := registry[toolId];
      forall k | k in args ensures Admitted(tool, k, args[k]) <==> TakesArgument(tool, k, args[k]) { SecretIff(k); }
      SanitizeExactly(map k | k in args && Keeps(tool, k) :: args[k]);
    }
  }

  lemma SanitizeIdempotent(args: Args)
    ensures Sanitize(Sanitize(args)) == Sanitize(args)
  {
  }

  /** Sanitizing turns every nested value, and every sensitive one, into text. */
  predicate StaysTyped(tool: Tool, key: Text) {
    key in tool.properties && Truthy(tool.properties[key]) ==>
      var expected := tool.properties[key].value;
      if Sensitive(key) then expected !in {"integer", "number", "boolean", "array", "object"}
      else expected !in {"array", "object"}
  }

  lemma StaysTypedExactly(tool: Tool, key: Text, v: Value)
    requires key in tool.properties && Declared(tool, key, v)
    ensures Declared(tool, key, SanitizeValue(key, v)) <==> StaysTyped(tool, key)
  {
  }

  /** Every required argument survives validation when given. */
  predicate KeepsRequired(tool: Tool) {
    forall k :: k in tool.required ==> Keeps(tool, k)
  }

  /** Validated arguments validate again, to themselves, exactly when no argument given
      is declared as a list or object, or is sensitive and declared as anything but text,
      and no required argument is one that validation drops. */
  lemma RevalidatesIff(registry: Registry, toolId: Text, args: Args)
    requires Validate(registry, toolId, args).Ok?
    ensures var kept := Validate(registry, toolId, args).value.arguments;
            Validate(registry, toolId, kept) == Ok(Checked(kept, {}))
            <==> (KeepsRequired(registry[toolId]) && forall k :: k in args ==> StaysTyped(registry[toolId], k))
  {
    var tool := registry[toolId];
    var kept := Validate(registry, toolId, args).value.arguments;
    if KeepsRequired(tool) && forall k :: k in args ==> StaysTyped(tool, k) {
      Revalidates(registry, toolId, args);
    } else if KeepsRequired(tool) {
      var k :| k in args && !StaysTyped(tool, k);
      StaysTypedExactly(tool, k, args[k]);
      assert k in kept && !Admitted(tool, k, kept[k]);
    } else {
      var k :| k in tool.required && !Keeps(tool, k);
      assert k !in kept;
    }
  }

  lemma Revalidates(registry: Registry, toolId: Text, args: Args)
    requires Validate(registry, toolId, args).Ok?
    requires KeepsRequired(registry[toolId]) && forall k :: k in args ==> StaysTyped(registry[toolId], k)
    ensures var kept := Validate(registry, toolId, args).value.arguments;
            Validate(registry, toolId, kept) == Ok(Checked(kept, {}))
  {
    var tool := registry[toolId];
    var kept := Validate(registry, toolId, args).value.arguments;
    forall k | k in kept ensures Admitted(tool, k, kept[k]) {
      if k in tool.properties { StaysTypedExactly(tool, k, args[k]); }
    }
    var allowed: Args := map k | k in args && Keeps(tool, k) :: args[k];
    SanitizeIdempotent(allowed);
    assert (map k | k in kept && Keeps(tool, k) :: kept[k]) == kept;
    assert (set k | k in kept && !Keeps(tool, k)) == {};
    assert tool.required <= kept.Keys;
  }
}
