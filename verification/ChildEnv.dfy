/** `build_child_env`: what a spawned child observes. */
module ChildEnv {
  import opened Prelude

  datatype Var = Var(name: string, value: Bytes)
  datatype EnvError = Collision | CarriesNul | TooLarge

  const MAX_CHILD_ENV_BYTES: nat := 1024 * 1024

  const ALLOWED_ENV: seq<string> := ["PATH", "HOME", "TERM", "LANG", "LC_ALL", "LC_CTYPE", "TMPDIR", "SHELL", "USER",
                                     "XDG_RUNTIME_DIR", "XDG_CONFIG_HOME", "XDG_DATA_HOME", "XDG_CACHE_HOME"]

  function Upper(s: string): string {
    seq(|s|, i requires 0 <= i < |s| => if 'a' <= s[i] <= 'z' then (s[i] as int - 32) as char else s[i])
  }

  predicate Contains(s: string, part: string) { exists i :: 0 <= i <= |s| && part <= s[i..] }

  predicate Forbidden(name: string) {
    var upper := Upper(name);
    || name == "SVAULT_TOKEN" || "SVAULT_" <= upper || Contains(upper, "TOKEN") || Contains(upper, "PASSPHRASE")
    || Contains(upper, "INTERNAL") || "LD_" <= upper || "DYLD_" <= upper
  }

  /** Caller entries pass only when allowlisted and not forbidden; secrets bypass the filter. */
  predicate Passes(name: string) { !Forbidden(name) && name in ALLOWED_ENV }

  predicate Selected(secrets: seq<Var>, name: string) { exists s :: s in secrets && s.name == name }

  predicate HasNul(v: Var) { '\0' in v.name || 0 in v.value }

  function Size(env: seq<Var>): nat { if env == [] then 0 else Size(env[..|env| - 1]) + |env[|env| - 1].name| + |env[|env| - 1].value| }

  predicate Carriable(env: seq<Var>) { (forall v :: v in env ==> !HasNul(v)) && Size(env) <= MAX_CHILD_ENV_BYTES }

  lemma {:induction false} SizeGrows(env: seq<Var>, more: seq<Var>)
    ensures Size(env) <= Size(env + more)
  {
    if more == [] {
      assert env + more == env;
    } else {
      assert (env + more)[..|env + more| - 1] == env + more[..|more| - 1];
      SizeGrows(env, more[..|more| - 1]);
    }
  }

  /** An environment that cannot be carried cannot be carried with more entries either. */
  lemma NotCarriableWithMore(env: seq<Var>, more: seq<Var>)
    requires !Carriable(env)
    ensures !Carriable(env + more)
  {
    SizeGrows(env, more);
    if v :| v in env && HasNul(v) { assert v in env + more; }
  }

  method Push(env: seq<Var>, total: nat, v: Var) returns (r: Result<(seq<Var>, nat), EnvError>)
    requires Carriable(env) && total == Size(env)
    ensures r.Ok? <==> Carriable(env + [v])
    ensures r.Ok? ==> r.value == (env + [v], Size(env + [v]))
    ensures r.Err? ==> r.error == if HasNul(v) then CarriesNul else TooLarge
  {
    assert (env + [v])[..|env|] == env && v in env + [v];
    if HasNul(v) { return Err(CarriesNul); }
    var total' := total + |v.name| + |v.value|;
    if total' > MAX_CHILD_ENV_BYTES { return Err(TooLarge); }
    return Ok((env + [v], total'));
  }

  /** The caller entries that pass, in order. */
  function Callers(request: seq<Var>): seq<Var> {
    if request == [] then []
    else Callers(request[..|request| - 1]) + if Passes(request[|request| - 1].name) then [request[|request| - 1]] else []
  }

  method PushCallers(request: seq<Var>, secrets: seq<Var>) returns (r: Result<(seq<Var>, nat), EnvError>)
    ensures r.Ok? <==> (forall v :: v in request ==> !Selected(secrets, v.name)) && Carriable(Callers(request))
    ensures r.Ok? ==> r.value == (Callers(request), Size(Callers(request)))
    ensures r.Err? && r.error == Collision ==> exists v :: v in request && Selected(secrets, v.name)
  {
    hide Passes;
    var out: seq<Var>, total := [], 0;
    for i := 0 to |request|
      invariant out == Callers(request[..i]) && Carriable(out) && total == Size(out)
      invariant forall k :: 0 <= k < i ==> !Selected(secrets, request[k].name)
    {
      assert request[..i + 1][..i] == request[..i];
      if Selected(secrets, request[i].name) { assert request[i] in request; return Err(Collision); }
      if Passes(request[i].name) {
        var pushed := Push(out, total, request[i]);
        if pushed.Err? { CallersOf(request, i + 1); return Err(pushed.error); }
        out, total := pushed.value.0, pushed.value.1;
      }
    }
    assert request[..|request|] == request;
    return Ok((out, total));
  }

  /** Too much already is too much for the whole request. */
  lemma CallersOf(request: seq<Var>, n: nat)
    requires n <= |request| && !Carriable(Callers(request[..n]))
    ensures !Carriable(Callers(request))
    decreases |request| - n
  {
    hide Passes;
    hide Carriable;
    if n == |request| {
      assert request[..n] == request;
    } else {
      assert request[..n + 1][..n] == request[..n];
      NotCarriableWithMore(Callers(request[..n]), if Passes(request[n].name) then [request[n]] else []);
      assert Callers(request[..n]) + [] == Callers(request[..n]);
      CallersOf(request, n + 1);
    }
  }

  /** The child gets the allowlisted caller entries and then every selected secret, byte for byte and in order, and
      nothing else; and it gets them exactly when no caller entry uses a selected secret's name, no entry that
      reaches the child carries a NUL, and all of them together fit. */
  method BuildChildEnv(request: seq<Var>, secrets: seq<Var>) returns (r: Result<seq<Var>, EnvError>)
    ensures r.Ok? <==> (forall v :: v in request ==> !Selected(secrets, v.name)) && Carriable(Callers(request) + secrets)
    ensures r.Ok? ==> r.value == Callers(request) + secrets
    ensures r.Err? && r.error == Collision ==> exists v :: v in request && Selected(secrets, v.name)
  {
    var callers := PushCallers(request, secrets);
    if callers.Err? {
      if !Carriable(Callers(request)) { NotCarriableWithMore(Callers(request), secrets); }
      return Err(callers.error);
    }
    var out, total := callers.value.0, callers.value.1;
    for i := 0 to |secrets|
      invariant out == Callers(request) + secrets[..i] && Carriable(out) && total == Size(out)
    {
      assert out + [secrets[i]] == Callers(request) + secrets[..i + 1];
      var pushed := Push(out, total, secrets[i]);
      if pushed.Err? {
        assert Callers(request) + secrets == (out + [secrets[i]]) + secrets[i + 1..];
        NotCarriableWithMore(out + [secrets[i]], secrets[i + 1..]);
        return Err(pushed.error);
      }
      out, total := pushed.value.0, pushed.value.1;
    }
    assert secrets[..|secrets|] == secrets;
    return Ok(out);
  }

  /** No caller entry outside the allowlist, and none with a forbidden name, ever reaches the child. */
  lemma {:induction false} OnlyAllowlistedCallers(request: seq<Var>)
    ensures forall v :: v in Callers(request) <==> v in request && v.name in ALLOWED_ENV && !Forbidden(v.name)
  {
    if request == [] {
    } else {
      OnlyAllowlistedCallers(request[..|request| - 1]);
      assert request == request[..|request| - 1] + [request[|request| - 1]];
    }
  }
}
