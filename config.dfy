/**
 * The configuration manager. The process environment is passed to each call
 * as a map, because `os.getenv` reads whatever the environment holds at the
 * time of the call. Only `_validated` is state of the object.
 */
module Configuration {
  import opened Wrappers
  import opened Text

  type Env = map<string, string>

  const ApiKeyVar: string := "OPENROUTER_API_KEY"
  const RequiredVars: seq<string> := [ApiKeyVar]
  const RedactedMarker: string := "[REDACTED]"

  /** `os.getenv(key, default)` */
  function Getenv(env: Env, key: string, default: string): string {
    if key in env then env[key] else default
  }

  /** `os.getenv(key)` is truthy: present and not empty. */
  predicate IsSet(env: Env, key: string) {
    key in env && env[key] != ""
  }

  /** The `ValueError` text for a missing required variable. */
  function MissingMessage(name: string): string {
    "Required environment variable '" + name + "' is missing. Please set it in .env file or system environment."
  }

  /** The index of the first variable of `names` that is not set, if any. */
  function FirstUnset(env: Env, names: seq<string>): (r: Option<nat>)
    ensures r.Some? ==> r.value < |names| && !IsSet(env, names[r.value])
    ensures r.Some? ==> forall j :: 0 <= j < r.value ==> IsSet(env, names[j])
    ensures r.None? <==> forall j :: 0 <= j < |names| ==> IsSet(env, names[j])
  {
    if names == [] then None
    else if !IsSet(env, names[0]) then Some(0)
    else match FirstUnset(env, names[1..])
      case None => None
      case Some(k) => Some(k + 1)
  }

  /** What `_validate_configuration` does: raise for the first required variable that is not set. */
  function Validation(env: Env): Outcome<string> {
    match FirstUnset(env, RequiredVars)
    case None => Pass
    case Some(i) => Fail(MissingMessage(RequiredVars[i]))
  }

  /** Validation fails exactly when the API key is unset or empty, naming it. */
  lemma ValidationIffApiKeySet(env: Env)
    ensures Validation(env).Pass? <==> IsSet(env, ApiKeyVar)
    ensures Validation(env).Fail? ==> Validation(env).error == MissingMessage(ApiKeyVar)
  {
    if !IsSet(env, ApiKeyVar) {
      assert !IsSet(env, RequiredVars[0]);
    }
  }

  /**
   * What the `api_key` property gives: validation first (skipped once it has
   * passed), then `os.getenv`, which raises only when the variable has gone
   * from the environment since validation passed.
   */
  function ApiKeyOutcome(validated: bool, env: Env): Result<string, string> {
    if !validated && Validation(env).Fail? then Failure(Validation(env).error)
    else if ApiKeyVar !in env then Failure("OPENROUTER_API_KEY is not set")
    else Success(env[ApiKeyVar])
  }

  /**
   * On a configuration not yet validated the key is returned exactly when it
   * is set; once validated, it is returned whenever present, even empty.
   */
  lemma ApiKeyOutcomeSpec(validated: bool, env: Env)
    ensures !validated ==> (ApiKeyOutcome(validated, env).Success? <==> IsSet(env, ApiKeyVar))
    ensures validated ==> (ApiKeyOutcome(validated, env).Success? <==> ApiKeyVar in env)
    ensures ApiKeyOutcome(validated, env).Success? ==> ApiKeyOutcome(validated, env).value == env[ApiKeyVar]
    ensures !validated && !IsSet(env, ApiKeyVar) ==> ApiKeyOutcome(validated, env) == Failure(MissingMessage(ApiKeyVar))
  {
    ValidationIffApiKeySet(env);
  }

  /** The values of the given variables, unset ones read as "" (`os.getenv(field, "")`). */
  function FieldValues(env: Env, fields: seq<string>): (vs: seq<string>)
    ensures |vs| == |fields|
    ensures forall i :: 0 <= i < |fields| ==> vs[i] == Getenv(env, fields[i], "")
  {
    if fields == [] then [] else FieldValues(env, fields[..|fields| - 1]) + [Getenv(env, fields[|fields| - 1], "")]
  }

  /** The values of those given variables that are set and non-empty, in order. */
  function SetFieldValues(env: Env, fields: seq<string>): seq<string> {
    if fields == [] then []
    else
      var f := fields[|fields| - 1];
      SetFieldValues(env, fields[..|fields| - 1]) + (if IsSet(env, f) then [env[f]] else [])
  }

  /** Each pattern replaced in turn, first to last, by `rep`. */
  function ReplaceEach(s: string, patterns: seq<string>, rep: string): string {
    if patterns == [] then s
    else Replace(ReplaceEach(s, patterns[..|patterns| - 1], rep), patterns[|patterns| - 1], rep)
  }

  lemma ReplaceEachSnoc(s: string, patterns: seq<string>, p: string, rep: string)
    ensures ReplaceEach(s, patterns + [p], rep) == Replace(ReplaceEach(s, patterns, rep), p, rep)
  {
    assert (patterns + [p])[..|patterns|] == patterns;
  }

  lemma FieldValuesSnoc(env: Env, fields: seq<string>, i: nat)
    requires i < |fields|
    ensures FieldValues(env, fields[..i + 1]) == FieldValues(env, fields[..i]) + [Getenv(env, fields[i], "")]
  {
    assert fields[..i + 1][..i] == fields[..i];
  }

  lemma SetFieldValuesSnoc(env: Env, fields: seq<string>, i: nat)
    requires i < |fields|
    ensures SetFieldValues(env, fields[..i + 1])
         == SetFieldValues(env, fields[..i]) + (if Getenv(env, fields[i], "") != "" then [Getenv(env, fields[i], "")] else [])
  {
    assert fields[..i + 1][..i] == fields[..i];
  }

  /** The decimal defaults of the integer settings. */
  lemma DefaultNumerals()
    ensures ParseInt("80") == Success(80) && ParseInt("24") == Success(24) && ParseInt("3") == Success(3)
  {
    ParseIntOfIntToString(80);
    ParseIntOfIntToString(24);
    ParseIntOfIntToString(3);
    assert NatToString(8) == "8" && NatToString(2) == "2";
    assert IntToString(80) == "80";
    assert IntToString(24) == "24";
  }

  class Config {
    var validated: bool

    /** `Config()`: loading the `.env` file is environment I/O and is not modelled. */
    constructor ()
      ensures !validated
    {
      validated := false;
    }

    /** `_validate_configuration`: checks the required variables in order. */
    method ValidateConfiguration(env: Env) returns (outcome: Outcome<string>)
      ensures outcome == Validation(env)
      ensures outcome.Pass? <==> IsSet(env, ApiKeyVar)
    {
      ValidationIffApiKeySet(env);
      var i := 0;
      while i < |RequiredVars|
        invariant 0 <= i <= |RequiredVars|
        invariant forall j :: 0 <= j < i ==> IsSet(env, RequiredVars[j])
      {
        if !IsSet(env, RequiredVars[i]) {
          return Fail(MissingMessage(RequiredVars[i]));
        }
        i := i + 1;
      }
      outcome := Pass;
    }

    /** `_ensure_validated`: validates only until a validation has passed. */
    method EnsureValidated(env: Env) returns (outcome: Outcome<string>)
      modifies this
      ensures old(validated) ==> outcome == Pass && validated
      ensures !old(validated) ==> outcome == Validation(env) && validated == outcome.Pass?
    {
      if !validated {
        outcome := ValidateConfiguration(env);
        if outcome.Pass? {
          validated := true;
        }
      } else {
        outcome := Pass;
      }
    }

    /** The `api_key` property. */
    method ApiKey(env: Env) returns (r: Result<string, string>)
      modifies this
      ensures r == ApiKeyOutcome(old(validated), env)
      ensures validated == (old(validated) || IsSet(env, ApiKeyVar))
    {
      ValidationIffApiKeySet(env);
      var v := EnsureValidated(env);
      if v.Fail? {
        return Failure(v.error);
      }
      if ApiKeyVar !in env {
        return Failure("OPENROUTER_API_KEY is not set");
      }
      r := Success(env[ApiKeyVar]);
    }

    /** The `model` property. */
    static function Model(env: Env): (r: string)
      ensures "OPENROUTER_MODEL" !in env ==> r == "gpt-3.5-turbo"
      ensures "OPENROUTER_MODEL" in env ==> r == env["OPENROUTER_MODEL"]
    {
      Getenv(env, "OPENROUTER_MODEL", "gpt-3.5-turbo")
    }

    /** The `min_width` property: `int()` of the variable, 80 when unset. */
    static function MinWidth(env: Env): (r: Result<int, string>)
      ensures "POSTMAN_MIN_WIDTH" !in env ==> r == Success(80)
      ensures "POSTMAN_MIN_WIDTH" in env ==> r == ParseInt(env["POSTMAN_MIN_WIDTH"])
    {
      DefaultNumerals();
      ParseInt(Getenv(env, "POSTMAN_MIN_WIDTH", "80"))
    }

    /** The `min_height` property: `int()` of the variable, 24 when unset. */
    static function MinHeight(env: Env): (r: Result<int, string>)
      ensures "POSTMAN_MIN_HEIGHT" !in env ==> r == Success(24)
      ensures "POSTMAN_MIN_HEIGHT" in env ==> r == ParseInt(env["POSTMAN_MIN_HEIGHT"])
    {
      DefaultNumerals();
      ParseInt(Getenv(env, "POSTMAN_MIN_HEIGHT", "24"))
    }

    /** The `content_length` property: `int()` of the variable, 3 when unset. */
    static function ContentLength(env: Env): (r: Result<int, string>)
      ensures "POSTMAN_CONTENT_LENGTH" !in env ==> r == Success(3)
      ensures "POSTMAN_CONTENT_LENGTH" in env ==> r == ParseInt(env["POSTMAN_CONTENT_LENGTH"])
    {
      DefaultNumerals();
      ParseInt(Getenv(env, "POSTMAN_CONTENT_LENGTH", "3"))
    }

    /** The `debug` property: on exactly when the variable is "1"; the default "0" is off. */
    static function Debug(env: Env): (r: bool)
      ensures r <==> "POSTMAN_DEBUG" in env && env["POSTMAN_DEBUG"] == "1"
    {
      Getenv(env, "POSTMAN_DEBUG", "0") == "1"
    }

    /**
     * `redact(message, *fields)` as written: each field's value, or "" when
     * the field is unset, is replaced in turn by the marker.
     */
    method Redact(env: Env, message: string, fields: seq<string>) returns (r: string)
      ensures r == ReplaceEach(message, FieldValues(env, fields), RedactedMarker)
      ensures fields == [] ==> r == message
    {
      r := message;
      var i := 0;
      while i < |fields|
        invariant 0 <= i <= |fields|
        invariant r == ReplaceEach(message, FieldValues(env, fields[..i]), RedactedMarker)
      {
        FieldValuesSnoc(env, fields, i);
        ReplaceEachSnoc(message, FieldValues(env, fields[..i]), Getenv(env, fields[i], ""), RedactedMarker);
        r := Replace(r, Getenv(env, fields[i], ""), RedactedMarker);
        i := i + 1;
      }
      assert fields[..|fields|] == fields;
    }

    /** `redact` as evidently intended: fields that are unset or empty are skipped. */
    method RedactSetFields(env: Env, message: string, fields: seq<string>) returns (r: string)
      ensures r == ReplaceEach(message, SetFieldValues(env, fields), RedactedMarker)
      ensures (forall i :: 0 <= i < |fields| ==> !IsSet(env, fields[i])) ==> r == message
    {
      r := message;
      var i := 0;
      while i < |fields|
        invariant 0 <= i <= |fields|
        invariant r == ReplaceEach(message, SetFieldValues(env, fields[..i]), RedactedMarker)
      {
        SetFieldValuesSnoc(env, fields, i);
        var value := Getenv(env, fields[i], "");
        if value != "" {
          ReplaceEachSnoc(message, SetFieldValues(env, fields[..i]), value, RedactedMarker);
          r := Replace(r, value, RedactedMarker);
        } else {
          assert SetFieldValues(env, fields[..i]) + [] == SetFieldValues(env, fields[..i]);
        }
        i := i + 1;
      }
      assert fields[..|fields|] == fields;
      NoSetFieldValues(env, fields);
    }
  }

  lemma {:induction false} NoSetFieldValues(env: Env, fields: seq<string>)
    ensures (forall i :: 0 <= i < |fields| ==> !IsSet(env, fields[i])) ==> SetFieldValues(env, fields) == []
  {
    if fields != [] {
      NoSetFieldValues(env, fields[..|fields| - 1]);
    }
  }

  /** When every field is set, the corrected redaction agrees with the one as written. */
  lemma {:induction false} SetFieldValuesWhenAllSet(env: Env, fields: seq<string>)
    requires forall i :: 0 <= i < |fields| ==> IsSet(env, fields[i])
    ensures SetFieldValues(env, fields) == FieldValues(env, fields)
  {
    if fields != [] {
      SetFieldValuesWhenAllSet(env, fields[..|fields| - 1]);
      assert FieldValues(env, fields) == FieldValues(env, fields[..|fields| - 1]) + [env[fields[|fields| - 1]]];
    }
  }

  /**
   * Redacting an unset field, as written, replaces the empty string: the
   * marker is inserted before every character and at the end, so the message
   * grows by 10 * (|message| + 1) characters instead of staying as it was.
   */
  lemma RedactUnsetFieldInsertsMarkers(env: Env, message: string, field: string)
    requires field !in env
    ensures ReplaceEach(message, FieldValues(env, [field]), RedactedMarker) == Replace(message, "", RedactedMarker)
    ensures |ReplaceEach(message, FieldValues(env, [field]), RedactedMarker)| == |message| + 10 * (|message| + 1)
    ensures ReplaceEach(message, FieldValues(env, [field]), RedactedMarker) != message
  {
    assert FieldValues(env, [field]) == [""];
    assert ReplaceEach(message, [""], RedactedMarker) == Replace(ReplaceEach(message, [], RedactedMarker), "", RedactedMarker);
    ReplaceEmptyPattern(message, RedactedMarker);
  }

  /** The input that shows it: `redact("ab", "UNSET")` gives "[REDACTED]a[REDACTED]b[REDACTED]". */
  lemma RedactUnsetFieldExample()
    ensures ReplaceEach("ab", FieldValues(map[], ["UNSET"]), RedactedMarker)
         == RedactedMarker + "a" + RedactedMarker + "b" + RedactedMarker
  {
    RedactUnsetFieldInsertsMarkers(map[], "ab", "UNSET");
    var tail := Replace("b", "", RedactedMarker);
    assert tail == RedactedMarker + "b" + RedactedMarker;
    assert Replace("ab", "", RedactedMarker) == RedactedMarker + "a" + tail;
  }

  /** The corrected redaction leaves a message alone when the field is unset. */
  lemma RedactSetFieldsSkipsUnset(env: Env, message: string, field: string)
    requires !IsSet(env, field)
    ensures ReplaceEach(message, SetFieldValues(env, [field]), RedactedMarker) == message
  {
    assert SetFieldValues(env, [field]) == [];
  }
}
