/** How the command line turns its tokens into steps (src/automana/tools/run_service.py):
    a token that starts with two dashes is a flag, whose value follows an equals sign or is
    the next token whatever that looks like; any other token starts the next service. */
module StepParser {
  import SC = ServiceChain

  type Step<V> = SC.Step<string, string, V>

  datatype Parsed<V> = Steps(steps: seq<Step<V>>) | MissingValue(key: string)

  predicate IsFlag(token: string) {
    |token| >= 2 && token[0] == '-' && token[1] == '-'
  }

  /** Python's `lstrip("-")`. */
  function LStrip(s: string): string {
    if s != "" && s[0] == '-' then LStrip(s[1..]) else s
  }

  /** Where the first equals sign is, or the length. */
  function FirstEquals(s: string): (i: nat)
    ensures i <= |s| && '=' !in s[..i] && (i < |s| ==> s[i] == '=')
  {
    if s == "" || s[0] == '=' then 0
    else
      var i := FirstEquals(s[1..]);
      assert s[..1 + i] == [s[0]] + s[1..][..i];
      1 + i
  }

  // ---------------------------------------------------------------- the parser

  function After<V>(step: Step<V>, rest: Parsed<V>): Parsed<V> {
    if rest.MissingValue? then rest else Steps([step] + rest.steps)
  }

  function Parse<V>(coerce: string -> V, svc: string, kwargs: map<string, V>, tokens: seq<string>): Parsed<V>
    decreases |tokens|
  {
    if tokens == [] then Steps([SC.Step(svc, kwargs)])
    else if IsFlag(tokens[0]) then
      var key := LStrip(tokens[0]);
      var i := FirstEquals(key);
      if i < |key| then Parse(coerce, svc, kwargs[key[..i] := coerce(key[i + 1..])], tokens[1..])
      else if |tokens| == 1 then MissingValue(key)
      else Parse(coerce, svc, kwargs[key := coerce(tokens[1])], tokens[2..])
    else After(SC.Step(svc, kwargs), Parse(coerce, tokens[0], map[], tokens[1..]))
  }

  function AfterAll<V>(steps: seq<Step<V>>, rest: Parsed<V>): Parsed<V> {
    if rest.MissingValue? then rest else Steps(steps + rest.steps)
  }

  lemma AfterAfterAll<V>(steps: seq<Step<V>>, step: Step<V>, rest: Parsed<V>)
    ensures AfterAll(steps, After(step, rest)) == AfterAll(steps + [step], rest)
  {
    if rest.Steps? {
      assert steps + ([step] + rest.steps) == steps + [step] + rest.steps;
    }
  }

  /** The parser's loop; `it` is the position of the iterator. */
  method ParseSteps<V>(coerce: string -> V, service: string, tokens: seq<string>) returns (parsed: Parsed<V>)
    ensures parsed == Parse(coerce, service, map[], tokens)
  {
    var steps: seq<Step<V>> := [];
    var svc, kwargs, it := service, map[], 0;
    while it < |tokens|
      invariant 0 <= it <= |tokens|
      invariant Parse(coerce, service, map[], tokens) == AfterAll(steps, Parse(coerce, svc, kwargs, tokens[it..]))
    {
      var token := tokens[it];
      assert tokens[it..][0] == token && tokens[it..][1..] == tokens[it + 1..];
      it := it + 1;
      if IsFlag(token) {
        var key, val := LStrip(token), "";
        var eq := FirstEquals(key);
        if eq < |key| {
          key, val := key[..eq], key[eq + 1..];
        } else {
          if it == |tokens| {
            return MissingValue(key);
          }
          assert tokens[it - 1..][1] == tokens[it] && tokens[it - 1..][2..] == tokens[it + 1..];
          val := tokens[it];
          it := it + 1;
        }
        kwargs := kwargs[key := coerce(val)];
      } else {
        AfterAfterAll(steps, SC.Step(svc, kwargs), Parse(coerce, token, map[], tokens[it..]));
        steps := steps + [SC.Step(svc, kwargs)];
        svc, kwargs := token, map[];
      }
    }
    return Steps(steps + [SC.Step(svc, kwargs)]);
  }

  // ---------------------------------------------------------------- what a user writes

  /** One keyword argument as written: `--key text` or `--key=text`, with `extra` dashes more. */
  datatype Arg = Spaced(extra: nat, key: string, text: string) | Inline(extra: nat, key: string, text: string)

  datatype Written = Written(service: string, args: seq<Arg>)

  function Dashes(n: nat): string {
    if n == 0 then "" else "-" + Dashes(n - 1)
  }

  predicate PlainKey(key: string) {
    '=' !in key && (key != "" ==> key[0] != '-')
  }

  function ArgTokens(a: Arg): seq<string> {
    match a
    case Spaced(n, key, text) => [Dashes(n + 2) + key, text]
    case Inline(n, key, text) => [Dashes(n + 2) + key + "=" + text]
  }

  function ArgsTokens(args: seq<Arg>): seq<string> {
    if args == [] then [] else ArgTokens(args[0]) + ArgsTokens(args[1..])
  }

  /** The tokens of the steps behind the first one's service. */
  function Flatten(args: seq<Arg>, more: seq<Written>): seq<string>
    decreases |more|
  {
    ArgsTokens(args) + if more == [] then [] else [more[0].service] + Flatten(more[0].args, more[1..])
  }

  predicate Writable(args: seq<Arg>, more: seq<Written>)
    decreases |more|
  {
    && (forall i :: 0 <= i < |args| ==> PlainKey(args[i].key))
    && (more != [] ==> !IsFlag(more[0].service) && Writable(more[0].args, more[1..]))
  }

  /** Later arguments of the same name win. */
  function Kwargs<V>(coerce: string -> V, kwargs: map<string, V>, args: seq<Arg>): map<string, V>
    decreases |args|
  {
    if args == [] then kwargs else Kwargs(coerce, kwargs[args[0].key := coerce(args[0].text)], args[1..])
  }

  function Meant<V>(coerce: string -> V, more: seq<Written>): seq<Step<V>> {
    if more == [] then []
    else [SC.Step(more[0].service, Kwargs(coerce, map[], more[0].args))] + Meant(coerce, more[1..])
  }

  // ---------------------------------------------------------------- strings

  lemma StripOne(s: string)
    ensures LStrip("-" + s) == LStrip(s)
  {
    assert ("-" + s)[1..] == s;
  }

  lemma {:induction false} StripDashes(n: nat, key: string)
    requires key != "" ==> key[0] != '-'
    ensures LStrip(Dashes(n) + key) == key
  {
    if n == 0 {
      assert Dashes(0) + key == key;
    } else {
      assert Dashes(n) + key == "-" + (Dashes(n - 1) + key);
      StripOne(Dashes(n - 1) + key);
      StripDashes(n - 1, key);
    }
  }

  lemma {:induction false} DashesThenStripped(s: string) returns (n: nat)
    ensures s == Dashes(n) + LStrip(s)
    ensures LStrip(s) != "" ==> LStrip(s)[0] != '-'
  {
    if s != "" && s[0] == '-' {
      var m := DashesThenStripped(s[1..]);
      n := m + 1;
      assert s == "-" + s[1..];
      assert Dashes(n) == "-" + Dashes(m);
    } else {
      n := 0;
    }
  }

  lemma TwoDashes(s: string, n: nat, key: string)
    requires IsFlag(s) && s == Dashes(n) + key && (key != "" ==> key[0] != '-')
    ensures n >= 2
  {
    assert n <= 1 ==> Dashes(n) == if n == 0 then "" else "-";
    assert |Dashes(n)| <= 1 ==> key != "" && s[|Dashes(n)|] == key[0];
  }

  lemma FlagToken(n: nat, key: string)
    ensures IsFlag(Dashes(n + 2) + key)
  {
    assert Dashes(n + 2) == "-" + Dashes(n + 1) && Dashes(n + 1) == "-" + Dashes(n);
  }

  lemma {:induction false} EqualsOf(key: string, text: string)
    requires '=' !in key
    ensures FirstEquals(key) == |key|
    ensures FirstEquals(key + "=" + text) == |key|
  {
    if key == "" {
      assert key + "=" + text == "=" + text;
    } else {
      EqualsOf(key[1..], text);
      assert (key + "=" + text)[1..] == key[1..] + "=" + text;
    }
  }

  // ---------------------------------------------------------------- round trip

  lemma ParseSpaced<V>(
      coerce: string -> V, svc: string, kwargs: map<string, V>, n: nat, key: string, text: string, rest: seq<string>)
    requires PlainKey(key)
    ensures Parse(coerce, svc, kwargs, [Dashes(n + 2) + key, text] + rest)
         == Parse(coerce, svc, kwargs[key := coerce(text)], rest)
  {
    EqualsOf(key, text);
    FlagToken(n, key);
    StripDashes(n + 2, key);
    assert ([Dashes(n + 2) + key, text] + rest)[2..] == rest;
  }

  lemma ParseInline<V>(
      coerce: string -> V, svc: string, kwargs: map<string, V>, n: nat, key: string, text: string, rest: seq<string>)
    requires PlainKey(key)
    ensures Parse(coerce, svc, kwargs, [Dashes(n + 2) + key + "=" + text] + rest)
         == Parse(coerce, svc, kwargs[key := coerce(text)], rest)
  {
    var s := key + "=" + text;
    assert Dashes(n + 2) + key + "=" + text == Dashes(n + 2) + s;
    EqualsOf(key, text);
    FlagToken(n, s);
    StripDashes(n + 2, s);
    assert s[..|key|] == key && s[|key| + 1..] == text;
    assert ([Dashes(n + 2) + s] + rest)[1..] == rest;
  }

  lemma ParseArg<V>(coerce: string -> V, svc: string, kwargs: map<string, V>, a: Arg, rest: seq<string>)
    requires PlainKey(a.key)
    ensures Parse(coerce, svc, kwargs, ArgTokens(a) + rest)
         == Parse(coerce, svc, kwargs[a.key := coerce(a.text)], rest)
  {
    match a
    case Spaced(n, key, text) => ParseSpaced(coerce, svc, kwargs, n, key, text, rest);
    case Inline(n, key, text) => ParseInline(coerce, svc, kwargs, n, key, text, rest);
  }

  lemma {:induction false} ParseArgs<V>(
      coerce: string -> V, svc: string, kwargs: map<string, V>, args: seq<Arg>, rest: seq<string>)
    requires forall i :: 0 <= i < |args| ==> PlainKey(args[i].key)
    ensures Parse(coerce, svc, kwargs, ArgsTokens(args) + rest)
         == Parse(coerce, svc, Kwargs(coerce, kwargs, args), rest)
    decreases |args|
  {
    if args == [] {
      assert ArgsTokens(args) + rest == rest;
    } else {
      assert ArgsTokens(args) + rest == ArgTokens(args[0]) + (ArgsTokens(args[1..]) + rest);
      ParseArg(coerce, svc, kwargs, args[0], ArgsTokens(args[1..]) + rest);
      ParseArgs(coerce, svc, kwargs[args[0].key := coerce(args[0].text)], args[1..], rest);
    }
  }

  /** Any list of steps, each argument in either form, is read back as written. */
  lemma {:induction false} RoundTrip<V>(coerce: string -> V, service: string, args: seq<Arg>, more: seq<Written>)
    requires Writable(args, more)
    ensures Parse(coerce, service, map[], Flatten(args, more)) == Steps(Meant(coerce, [Written(service, args)] + more))
    decreases |more|
  {
    var all := [Written(service, args)] + more;
    assert all[1..] == more;
    if more == [] {
      ParseArgs(coerce, service, map[], args, []);
    } else {
      var tail := Flatten(more[0].args, more[1..]);
      ParseArgs(coerce, service, map[], args, [more[0].service] + tail);
      assert ([more[0].service] + tail)[1..] == tail;
      RoundTrip(coerce, more[0].service, more[0].args, more[1..]);
      assert [Written(more[0].service, more[0].args)] + more[1..] == more;
    }
  }

  // ---------------------------------------------------------------- exactly which tokens parse

  lemma ReadArg(token: string) returns (n: nat)
    requires IsFlag(token)
    ensures
      var key := LStrip(token);
      var i := FirstEquals(key);
      && token == Dashes(n + 2) + key
      && PlainKey(key[..i])
      && (i < |key| ==> token == Dashes(n + 2) + key[..i] + "=" + key[i + 1..])
  {
    var d := DashesThenStripped(token);
    var key := LStrip(token);
    TwoDashes(token, d, key);
    n := d - 2;
    var i := FirstEquals(key);
    if i < |key| {
      assert key == key[..i] + "=" + key[i + 1..];
      assert token == Dashes(d) + key[..i] + "=" + key[i + 1..];
    }
  }

  predicate LacksValue(tokens: seq<string>) {
    |tokens| == 1 && IsFlag(tokens[0]) && '=' !in LStrip(tokens[0])
  }

  lemma ReadInline(tokens: seq<string>, n: nat, key: string, i: nat) returns (a: Arg, rest: seq<string>)
    requires tokens != [] && i < |key| && PlainKey(key[..i])
    requires tokens[0] == Dashes(n + 2) + key[..i] + "=" + key[i + 1..]
    ensures PlainKey(a.key) && tokens == ArgTokens(a) + rest && |rest| < |tokens|
  {
    a, rest := Inline(n, key[..i], key[i + 1..]), tokens[1..];
    assert tokens == [tokens[0]] + rest;
  }

  lemma ReadSpaced(tokens: seq<string>, n: nat, key: string) returns (a: Arg, rest: seq<string>)
    requires |tokens| >= 2 && PlainKey(key) && tokens[0] == Dashes(n + 2) + key
    ensures PlainKey(a.key) && tokens == ArgTokens(a) + rest && |rest| < |tokens|
  {
    a, rest := Spaced(n, key, tokens[1]), tokens[2..];
    assert tokens == [tokens[0], tokens[1]] + rest;
  }

  lemma ReadFlag(tokens: seq<string>) returns (a: Arg, rest: seq<string>)
    requires tokens != [] && IsFlag(tokens[0]) && !LacksValue(tokens)
    ensures PlainKey(a.key) && tokens == ArgTokens(a) + rest && |rest| < |tokens|
  {
    var n := ReadArg(tokens[0]);
    var key := LStrip(tokens[0]);
    var i := FirstEquals(key);
    if i < |key| {
      a, rest := ReadInline(tokens, n, key, i);
    } else {
      assert key[..i] == key;
      a, rest := ReadSpaced(tokens, n, key);
    }
  }

  lemma Assoc(a: seq<string>, b: seq<string>, c: seq<string>)
    ensures a + b + c == a + (b + c)
  {
  }

  lemma PrependService(service: string, args: seq<Arg>, more: seq<Written>)
    requires !IsFlag(service) && Writable(args, more)
    ensures Writable([], [Written(service, args)] + more)
    ensures Flatten([], [Written(service, args)] + more) == [service] + Flatten(args, more)
  {
    assert ([Written(service, args)] + more)[1..] == more;
  }

  lemma PrependArg(a: Arg, args: seq<Arg>, more: seq<Written>)
    requires PlainKey(a.key) && Writable(args, more)
    ensures Writable([a] + args, more)
    ensures Flatten([a] + args, more) == ArgTokens(a) + Flatten(args, more)
  {
    assert ([a] + args)[1..] == args;
  }

  /** Every token list is the writing of some steps, possibly followed by a flag that lacks
      its value. */
  lemma {:induction false} Readable(tokens: seq<string>)
    returns (args: seq<Arg>, more: seq<Written>, dangling: seq<string>)
    ensures Writable(args, more)
    ensures tokens == Flatten(args, more) + dangling
    ensures dangling == [] || LacksValue(dangling)
    decreases |tokens|
  {
    if tokens == [] || LacksValue(tokens) {
      args, more, dangling := [], [], tokens;
    } else if IsFlag(tokens[0]) {
      var a, rest := ReadFlag(tokens);
      var args', more', d := Readable(rest);
      PrependArg(a, args', more');
      args, more, dangling := [a] + args', more', d;
      Assoc(ArgTokens(a), Flatten(args', more'), d);
    } else {
      var args', more', d := Readable(tokens[1..]);
      PrependService(tokens[0], args', more');
      args, more, dangling := [], [Written(tokens[0], args')] + more', d;
      Assoc([tokens[0]], Flatten(args', more'), d);
      assert tokens == [tokens[0]] + tokens[1..];
    }
  }

  lemma {:induction false} DanglingFails<V>(
      coerce: string -> V, svc: string, kwargs: map<string, V>, args: seq<Arg>, more: seq<Written>, flag: string)
    requires Writable(args, more) && LacksValue([flag])
    ensures Parse(coerce, svc, kwargs, Flatten(args, more) + [flag]) == MissingValue(LStrip(flag))
    decreases |more|
  {
    if more == [] {
      ParseArgs(coerce, svc, kwargs, args, [flag]);
      EqualsOf(LStrip(flag), "");
      assert Flatten(args, more) + [flag] == ArgsTokens(args) + [flag];
    } else {
      var tail := Flatten(more[0].args, more[1..]) + [flag];
      assert Flatten(args, more) + [flag] == ArgsTokens(args) + ([more[0].service] + tail);
      ParseArgs(coerce, svc, kwargs, args, [more[0].service] + tail);
      assert ([more[0].service] + tail)[1..] == tail;
      DanglingFails(coerce, more[0].service, map[], more[0].args, more[1..], flag);
    }
  }

  /** Parsing succeeds on exactly the writings of steps and then means those steps; it fails
      on exactly the writings followed by a flag without a value, and names that flag. */
  lemma ParsesExactlyTheWritings<V>(coerce: string -> V, service: string, tokens: seq<string>)
    returns (args: seq<Arg>, more: seq<Written>, dangling: seq<string>)
    ensures Writable(args, more) && tokens == Flatten(args, more) + dangling
    ensures dangling == [] || LacksValue(dangling)
    ensures Parse(coerce, service, map[], tokens) ==
      if dangling == [] then Steps(Meant(coerce, [Written(service, args)] + more))
      else MissingValue(LStrip(dangling[0]))
  {
    args, more, dangling := Readable(tokens);
    if dangling == [] {
      assert tokens == Flatten(args, more);
      RoundTrip(coerce, service, args, more);
    } else {
      assert dangling == [dangling[0]];
      DanglingFails(coerce, service, map[], args, more, dangling[0]);
    }
  }
}
