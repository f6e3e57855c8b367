/**
 * CloudFormation stack naming shared by the two ECS scaling scripts:
 * environment discovery over a stack listing, client-id extraction for one
 * environment, and construction of the stack and cluster names.
 *
 * The regular expressions are compiled in their anchored form
 * (`^ecs-[a-zA-Z]{6}-[a-zA-Z]{3}\d$` and `^ecs-[a-zA-Z]{6}-<env>$`) into
 * predicates over the characters of a name.
 */
module StackNames {
  import opened Wrappers

  const Prefix: string := "ecs-"

  predicate IsAsciiLetter(c: char) { 'a' <= c <= 'z' || 'A' <= c <= 'Z' }

  predicate IsAsciiDigit(c: char) { '0' <= c <= '9' }

  predicate AllLetters(s: string) { forall i :: 0 <= i < |s| ==> IsAsciiLetter(s[i]) }

  /** `[a-zA-Z]{6}`: a client id. */
  predicate IsClientId(c: string) { |c| == 6 && AllLetters(c) }

  /** `[a-zA-Z]{3}\d`: an environment code. */
  predicate IsEnvCode(e: string) { |e| == 4 && AllLetters(e[..3]) && IsAsciiDigit(e[3]) }

  /** `^ecs-[a-zA-Z]{6}-<env>$` with `env` taken literally. */
  predicate IsClientStack(name: string, env: string) {
    && |name| == 11 + |env|
    && name[..4] == Prefix
    && IsClientId(name[4..10])
    && name[10] == '-'
    && name[11..] == env
  }

  /** `^ecs-[a-zA-Z]{6}-[a-zA-Z]{3}\d$`: the name of an environment's stack. */
  predicate IsEnvironmentStack(name: string) {
    |name| == 15 && IsClientStack(name, name[11..]) && IsEnvCode(name[11..])
  }

  /** `"ecs-" + client + "-" + env` */
  function StackName(client: string, env: string): string {
    Prefix + client + "-" + env
  }

  /** `client + "-" + env + "-ecs"` */
  function ClusterName(client: string, env: string): string {
    client + "-" + env + "-ecs"
  }

  /** `name[-4:]` of a matching stack name: its environment code. */
  function EnvCodeOf(name: string): (e: string)
    requires IsEnvironmentStack(name)
    ensures IsEnvCode(e) && IsClientStack(name, e)
    ensures StackName(name[4..10], e) == name
  {
    name[|name| - 4..]
  }

  /** `re.sub("^ecs-|-<env>$", "", name)` on a name that matched `^ecs-[a-zA-Z]{6}-<env>$`. */
  function ClientIdOf(name: string, env: string): (c: string)
    requires IsClientStack(name, env)
    ensures IsClientId(c)
    ensures StackName(c, env) == name
  {
    name[|Prefix|..|name| - |env| - 1]
  }

  /** Reading a constructed name back yields its parts. */
  lemma StackNameParts(client: string, env: string)
    requires IsClientId(client)
    ensures IsClientStack(StackName(client, env), env)
    ensures ClientIdOf(StackName(client, env), env) == client
    ensures IsEnvCode(env) ==>
              IsEnvironmentStack(StackName(client, env)) && EnvCodeOf(StackName(client, env)) == env
  {
    var name := StackName(client, env);
    assert name[..4] == Prefix && name[4..10] == client && name[11..] == env;
  }

  /** The environment codes discovered in a stack listing, in listing order. */
  function EnvCodes(names: seq<string>): (codes: seq<string>)
    ensures |codes| <= |names|
    ensures forall c :: c in codes ==> IsEnvCode(c)
    decreases |names|
  {
    if |names| == 0 then []
    else
      var last := names[|names| - 1];
      EnvCodes(names[..|names| - 1]) + (if IsEnvironmentStack(last) then [EnvCodeOf(last)] else [])
  }

  /** Discovery distributes over concatenated listings: the order of the listing is kept. */
  lemma {:induction false} EnvCodesAppend(a: seq<string>, b: seq<string>)
    ensures EnvCodes(a + b) == EnvCodes(a) + EnvCodes(b)
    decreases |b|
  {
    if |b| == 0 {
      assert a + b == a;
    } else {
      var b' := b[..|b| - 1];
      assert (a + b)[..|a + b| - 1] == a + b';
      EnvCodesAppend(a, b');
    }
  }

  /** A code is discovered exactly when some listed name matches the pattern and ends in that code. */
  lemma {:induction false} EnvCodesMember(names: seq<string>, e: string)
    ensures e in EnvCodes(names)
        <==> exists i :: 0 <= i < |names| && IsEnvironmentStack(names[i]) && EnvCodeOf(names[i]) == e
    decreases |names|
  {
    if |names| > 0 {
      var init := names[..|names| - 1];
      EnvCodesMember(init, e);
      if e in EnvCodes(init) {
        var i :| 0 <= i < |init| && IsEnvironmentStack(init[i]) && EnvCodeOf(init[i]) == e;
        assert names[i] == init[i];
      }
      if exists i :: 0 <= i < |names| && IsEnvironmentStack(names[i]) && EnvCodeOf(names[i]) == e {
        var i :| 0 <= i < |names| && IsEnvironmentStack(names[i]) && EnvCodeOf(names[i]) == e;
        if i < |init| {
          assert init[i] == names[i];
        }
      }
    }
  }

  /** `filter_environments_from_cloudformation`: the loop appending `name[-4:]` of every matching name. */
  method FilterEnvironments(names: seq<string>) returns (env: seq<string>)
    ensures env == EnvCodes(names)
  {
    env := [];
    var i := 0;
    while i < |names|
      invariant 0 <= i <= |names|
      invariant env == EnvCodes(names[..i])
    {
      if IsEnvironmentStack(names[i]) {
        env := env + [names[i][|names[i]| - 4..]];
      }
      i := i + 1;
      assert names[..i][..i - 1] == names[..i - 1];
    }
    assert names[..i] == names;
  }

  /** The client id the last name matching `env` yields; None when no name matches (the unbound `client_id`). */
  function LastClientId(names: seq<string>, env: string): (r: Option<string>)
    ensures r.Some? ==> IsClientId(r.value)
    decreases |names|
  {
    if |names| == 0 then None
    else if IsClientStack(names[|names| - 1], env) then Some(ClientIdOf(names[|names| - 1], env))
    else LastClientId(names[..|names| - 1], env)
  }

  /** The last matching name wins, and extraction fails exactly when no name matches. */
  lemma {:induction false} LastClientIdIsLastMatch(names: seq<string>, env: string)
    ensures LastClientId(names, env).None? <==> forall i :: 0 <= i < |names| ==> !IsClientStack(names[i], env)
    ensures LastClientId(names, env).Some? ==>
              exists i :: 0 <= i < |names| && IsClientStack(names[i], env)
                        && LastClientId(names, env).value == ClientIdOf(names[i], env)
                        && forall j :: i < j < |names| ==> !IsClientStack(names[j], env)
    decreases |names|
  {
    if |names| > 0 && !IsClientStack(names[|names| - 1], env) {
      var init := names[..|names| - 1];
      LastClientIdIsLastMatch(init, env);
      assert forall i :: 0 <= i < |init| ==> init[i] == names[i];
    }
  }

  /** `filter_client_id_cloudformation`: the loop overwriting `client_id` on every matching name. */
  method FilterClientId(names: seq<string>, env: string) returns (clientId: Option<string>)
    ensures clientId == LastClientId(names, env)
  {
    clientId := None;
    var i := 0;
    while i < |names|
      invariant 0 <= i <= |names|
      invariant clientId == LastClientId(names[..i], env)
    {
      if IsClientStack(names[i], env) {
        clientId := Some(ClientIdOf(names[i], env));
      }
      i := i + 1;
      assert names[..i][..i - 1] == names[..i - 1];
    }
    assert names[..i] == names;
  }

  /** Every discovered environment has a client id: the extraction that follows discovery never fails. */
  lemma DiscoveredEnvHasClient(names: seq<string>, e: string)
    requires e in EnvCodes(names)
    ensures LastClientId(names, e).Some?
  {
    EnvCodesMember(names, e);
    LastClientIdIsLastMatch(names, e);
    var i :| 0 <= i < |names| && IsEnvironmentStack(names[i]) && EnvCodeOf(names[i]) == e;
    assert IsClientStack(names[i], e);
  }

  /** Names that do not match leave the extracted client id as it was. */
  lemma {:induction false} LastClientIdSkip(names: seq<string>, rest: seq<string>, env: string)
    requires forall j :: 0 <= j < |rest| ==> !IsClientStack(rest[j], env)
    ensures LastClientId(names + rest, env) == LastClientId(names, env)
    decreases |rest|
  {
    if |rest| == 0 {
      assert names + rest == names;
    } else {
      var rest' := rest[..|rest| - 1];
      assert (names + rest)[..|names + rest| - 1] == names + rest';
      assert (names + rest)[|names + rest| - 1] == rest[|rest| - 1];
      LastClientIdSkip(names, rest', env);
    }
  }

  /**
   * Round trip: the stack `ecs-<client>-<env>` is discovered as `env`, and,
   * when no later name of the listing matches that env, client extraction
   * gives back `client`.
   */
  lemma StackNameRoundTrip(client: string, env: string, before: seq<string>, after: seq<string>)
    requires IsClientId(client) && IsEnvCode(env)
    requires forall j :: 0 <= j < |after| ==> !IsClientStack(after[j], env)
    ensures env in EnvCodes(before + [StackName(client, env)] + after)
    ensures LastClientId(before + [StackName(client, env)] + after, env) == Some(client)
  {
    var name := StackName(client, env);
    StackNameParts(client, env);
    var upTo := before + [name];
    assert upTo[..|upTo| - 1] == before;
    assert LastClientId(upTo, env) == Some(client);
    LastClientIdSkip(upTo, after, env);
    EnvCodesAppend(upTo, after);
    assert EnvCodes(upTo) == EnvCodes(before) + [env];
  }
}
