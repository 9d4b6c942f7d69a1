/** `loadConfig(program, argumentMappings)` of lib/env_loader.js: copy
    environment variables into the options of the command-line program
    without overwriting options that were passed, then drop the password
    when a username was passed that differs from `SCS_USERNAME`. Loading
    the `.scs-commander` file into the environment happens before and is
    not part of this model: the environment is an input. */
module EnvLoader {
  import opened Common

  const UsernameKey := "username"
  const PasswordKey := "password"
  const UsernameVariable := "SCS_USERNAME"

  const DefaultMappings: map<string, string> := map[UsernameKey := UsernameVariable, PasswordKey := "SCS_PASSWORD"]

  type Env = map<string, string>

  /** The program object's own options, by name. */
  class Program {
    var options: map<string, string>

    constructor (options: map<string, string>)
      ensures this.options == options
    {
      this.options := options;
    }
  }

  /** `argumentMappings || defaultMappings`: any mapping object given is
      used, even an empty one. */
  function Mappings(argumentMappings: Option<map<string, string>>): (m: map<string, string>)
    ensures argumentMappings.Some? ==> m == argumentMappings.value
    ensures argumentMappings.None? ==> m.Keys == {UsernameKey, PasswordKey} && m[UsernameKey] == UsernameVariable && m[PasswordKey] == "SCS_PASSWORD"
  {
    if argumentMappings.Some? then argumentMappings.value else DefaultMappings
  }

  /** The options after copying: every option that was there, plus every
      mapped key whose variable is set. */
  function Copied(options: map<string, string>, env: Env, mappings: map<string, string>): map<string, string> {
    map k | k in options.Keys + (set a | a in mappings && mappings[a] in env) :: if k in options then options[k] else env[mappings[k]]
  }

  function Lookup(options: map<string, string>, key: string): Option<string> {
    if key in options then Some(options[key]) else None
  }

  /** The reset rule: a non-empty username was passed and `SCS_USERNAME` is
      unset or differs from it. */
  predicate PasswordReset(originalUsername: Option<string>, env: Env) {
    Present(originalUsername) && Lookup(env, UsernameVariable) != originalUsername
  }

  /** The options `loadConfig` leaves behind. */
  function Loaded(options: map<string, string>, env: Env, argumentMappings: Option<map<string, string>>): map<string, string> {
    var copied := Copied(options, env, Mappings(argumentMappings));
    if PasswordReset(Lookup(options, UsernameKey), env) then copied - {PasswordKey} else copied
  }

  method LoadConfig(program: Program, env: Env, argumentMappings: Option<map<string, string>>)
    modifies program
    ensures program.options == Loaded(old(program.options), env, argumentMappings)
  {
    var originalUsername := Lookup(program.options, UsernameKey);
    var mappings := if argumentMappings.Some? then argumentMappings.value else DefaultMappings;
    ghost var passed := program.options;
    var remaining := mappings.Keys;
    while remaining != {}
      invariant remaining <= mappings.Keys
      invariant program.options == Copied(passed, env, mappings - remaining)
      decreases remaining
    {
      var argKey :| argKey in remaining;
      var envKey := mappings[argKey];
      CopiedStep(passed, env, mappings, remaining, argKey);
      if envKey in env && argKey !in program.options {
        program.options := program.options[argKey := env[envKey]];
      }
      remaining := remaining - {argKey};
    }
    assert mappings - {} == mappings;
    if PasswordReset(originalUsername, env) {
      program.options := program.options - {PasswordKey};
    }
  }

  /** One step of the copy loop: handling `argKey` extends the copy by that
      key. */
  lemma CopiedStep(options: map<string, string>, env: Env, mappings: map<string, string>, remaining: set<string>, argKey: string)
    requires argKey in remaining && remaining <= mappings.Keys
    ensures var before := Copied(options, env, mappings - remaining);
      var after := Copied(options, env, mappings - (remaining - {argKey}));
      && (argKey in before <==> argKey in options)
      && after == (if mappings[argKey] in env && argKey !in before then before[argKey := env[mappings[argKey]]] else before)
  {
    var before := Copied(options, env, mappings - remaining);
    var after := Copied(options, env, mappings - (remaining - {argKey}));
    var expected := if mappings[argKey] in env && argKey !in before then before[argKey := env[mappings[argKey]]] else before;
    assert after.Keys == expected.Keys;
  }

  // ----- what loading promises --------------------------------------------------

  /** Options that were passed keep their values; only the password can
      disappear, by the reset rule. */
  lemma NeverOverwrites(options: map<string, string>, env: Env, argumentMappings: Option<map<string, string>>)
    ensures var r := Loaded(options, env, argumentMappings);
      forall k :: k in options && k != PasswordKey ==> k in r && r[k] == options[k]
    ensures var r := Loaded(options, env, argumentMappings);
      PasswordKey in options ==> (PasswordKey in r <==> !PasswordReset(Lookup(options, UsernameKey), env))
  {
  }

  /** Every option added is a mapped key whose variable is set, with that
      variable's value, and every such key not passed is added (up to the
      reset of the password). */
  lemma AddsExactlyMappedVariables(options: map<string, string>, env: Env, argumentMappings: Option<map<string, string>>)
    ensures var r := Loaded(options, env, argumentMappings); var m := Mappings(argumentMappings);
      forall k :: k in r && k !in options ==> k in m && m[k] in env && r[k] == env[m[k]]
    ensures var r := Loaded(options, env, argumentMappings); var m := Mappings(argumentMappings);
      forall k :: k in m && m[k] in env && k !in options && k != PasswordKey ==> k in r
  {
  }

  /** The username that decides the reset is the one passed, captured
      before copying: a username that comes only from the environment never
      drops the password. */
  lemma UsernameFromEnvKeepsPassword(options: map<string, string>, env: Env)
    requires UsernameKey !in options && UsernameVariable in env && "SCS_PASSWORD" in env
    ensures var r := Loaded(options, env, None);
      r[UsernameKey] == env[UsernameVariable] && PasswordKey in r
  {
  }

  /** With a passed username that `SCS_USERNAME` does not confirm, the
      password goes even when it was passed explicitly, and the check reads
      `SCS_USERNAME` whatever mappings are given. */
  lemma MismatchDropsPassword(options: map<string, string>, env: Env, argumentMappings: Option<map<string, string>>)
    requires UsernameKey in options && options[UsernameKey] != ""
    requires UsernameVariable !in env || env[UsernameVariable] != options[UsernameKey]
    ensures PasswordKey !in Loaded(options, env, argumentMappings)
  {
  }
}
