/** The API-key gate: `API_KEYS = os.getenv("CLAWSEARCH_API_KEYS", "").split(",")`
    and `verify_api_key`, which every search endpoint depends on. */
module Auth {
  import opened Wrappers
  import opened HttpErrors

  /** `s.split(",")`: the pieces between commas, always at least one. */
  function Split(s: string): (r: seq<string>)
    ensures |r| >= 1
    ensures forall i :: 0 <= i < |r| ==> ',' !in r[i]
    decreases |s|
  {
    if s == [] then [""]
    else if s[0] == ',' then [""] + Split(s[1..])
    else
      var t := Split(s[1..]);
      [[s[0]] + t[0]] + t[1..]
  }

  /** `",".join(parts)`. */
  function Join(parts: seq<string>): (s: string)
    requires |parts| >= 1
    decreases |parts|
  {
    if |parts| == 1 then parts[0] else parts[0] + "," + Join(parts[1..])
  }

  /** Splitting on commas loses nothing: joining the pieces gives the string back. */
  lemma {:induction false} JoinSplit(s: string)
    ensures Join(Split(s)) == s
    decreases |s|
  {
    if s != [] {
      JoinSplit(s[1..]);
      var t := Split(s[1..]);
      if s[0] != ',' {
        if |t| == 1 {
          assert Join(Split(s)) == [s[0]] + t[0];
        } else {
          assert Join(Split(s)) == ([s[0]] + t[0]) + "," + Join(t[1..]);
          assert Join(t) == t[0] + "," + Join(t[1..]);
        }
      }
      assert s == [s[0]] + s[1..];
    }
  }

  /** Comma-free pieces are recovered by splitting what joining them gives. */
  lemma {:induction false} SplitJoin(parts: seq<string>)
    requires |parts| >= 1
    requires forall i :: 0 <= i < |parts| ==> ',' !in parts[i]
    ensures Split(Join(parts)) == parts
    decreases |parts|, |parts[0]|
  {
    var p := parts[0];
    if |parts| == 1 {
      SplitCommaFree(p);
    } else if p == "" {
      SplitJoin(parts[1..]);
      assert Join(parts) == "," + Join(parts[1..]);
      assert parts == [""] + parts[1..];
    } else {
      var rest := [p[1..]] + parts[1..];
      SplitJoin(rest);
      assert Join(rest) == p[1..] + "," + Join(parts[1..]);
      assert Join(parts) == [p[0]] + Join(rest);
      assert p == [p[0]] + p[1..];
      assert parts == [[p[0]] + rest[0]] + rest[1..];
    }
  }

  lemma {:induction false} SplitCommaFree(s: string)
    requires ',' !in s
    ensures Split(s) == [s]
    decreases |s|
  {
    if s != [] {
      SplitCommaFree(s[1..]);
      assert s == [s[0]] + s[1..];
    }
  }

  /** A comma-separated string splits to `[""]` exactly when it is empty. */
  lemma SplitIsEmptyPieceIff(s: string)
    ensures Split(s) == [""] <==> s == ""
  {
    if Split(s) == [""] {
      JoinSplit(s);
    }
  }

  /** `API_KEYS` from the value of `CLAWSEARCH_API_KEYS`, empty when it is unset: `[""]`
      for an unset variable, and otherwise pieces whose comma-join is the value. */
  function ApiKeysFromEnv(env: Option<string>): (keys: seq<string>)
    ensures |keys| >= 1
    ensures env.None? ==> keys == [""]
    ensures env.Some? ==> Join(keys) == env.value
    ensures forall i :: 0 <= i < |keys| ==> ',' !in keys[i]
  {
    JoinSplit(env.GetOr(""));
    Split(env.GetOr(""))
  }

  /** True when no allow-list is configured: the list is empty or just `[""]`, that is,
      it has at most one entry and no entry is a real key. */
  predicate AuthDisabled(keys: seq<string>): (r: bool)
    ensures r <==> |keys| <= 1 && forall i :: 0 <= i < |keys| ==> keys[i] == ""
  {
    |keys| == 0 || keys == [""]
  }

  /** `verify_api_key(x_api_key)`: `Ok(true)` to let the request through, else a 401. */
  function VerifyApiKey(keys: seq<string>, apiKey: Option<string>): (r: Result<bool, HttpError>)
    ensures r.Ok? ==> r.value
    ensures r.Err? ==> r.error == Unauthorized()
  {
    if AuthDisabled(keys) then Ok(true)
    else if apiKey.Some? && apiKey.value != "" && apiKey.value in keys then Ok(true)
    else Err(Unauthorized())
  }

  /** With an allow-list, a request passes exactly when it carries a non-empty key that is on the list. */
  lemma ConfiguredGate(keys: seq<string>, apiKey: Option<string>)
    requires !AuthDisabled(keys)
    ensures VerifyApiKey(keys, apiKey).Ok? <==> apiKey.Some? && apiKey.value != "" && apiKey.value in keys
  {
  }

  /** Leaving `CLAWSEARCH_API_KEYS` unset or empty lets every request through, with or without a key. */
  lemma UnsetVariableDisablesAuth(env: Option<string>, apiKey: Option<string>)
    requires env.None? || env == Some("")
    ensures ApiKeysFromEnv(env) == [""]
    ensures VerifyApiKey(ApiKeysFromEnv(env), apiKey) == Ok(true)
  {
  }

  /** With a non-empty variable, a request passes exactly when its key is one of the
      non-empty comma-separated pieces of the variable. */
  lemma ConfiguredVariableGate(env: string, apiKey: Option<string>)
    requires env != ""
    ensures VerifyApiKey(Split(env), apiKey).Ok?
        <==> apiKey.Some? && apiKey.value != "" && apiKey.value in Split(env)
  {
    SplitIsEmptyPieceIff(env);
  }

  /** An empty piece in the list (`"a,"`, `"a,,b"`) does not let a missing or empty key through. */
  lemma EmptyPieceAdmitsNoEmptyKey(env: string)
    requires env != ""
    ensures VerifyApiKey(Split(env), None).Err?
    ensures VerifyApiKey(Split(env), Some("")).Err?
  {
    SplitIsEmptyPieceIff(env);
  }

  /** When auth is on, a key that contains a comma never passes: no piece holds one. */
  lemma KeyWithCommaRejected(env: string, key: string)
    requires env != "" && ',' in key
    ensures VerifyApiKey(Split(env), Some(key)) == Err(Unauthorized())
  {
    SplitIsEmptyPieceIff(env);
  }

  /** When auth is on, every non-empty key written in the variable passes. */
  lemma ConfiguredKeysPass(parts: seq<string>, i: int)
    requires |parts| >= 1 && parts != [""]
    requires forall j :: 0 <= j < |parts| ==> ',' !in parts[j]
    requires 0 <= i < |parts| && parts[i] != ""
    ensures VerifyApiKey(Split(Join(parts)), Some(parts[i])) == Ok(true)
  {
    SplitJoin(parts);
  }
}
