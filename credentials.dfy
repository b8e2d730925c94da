/**
  * The company-secrets loader: a flag read from three environment variable names decides
  * whether the local credentials file is preferred; otherwise a non-empty AWS listing wins,
  * then the local file, then nothing.
  */
module Credentials {
  import opened Wrappers
  import opened Strings

  const USE_LOCAL_KEYS := ["VITE_USE_LOCAL_CREDS", "NEXT_PUBLIC_USE_LOCAL_CREDS", "REACT_APP_USE_LOCAL_CREDS"]

  /** An environment object that may itself be missing (`import.meta.env`, `process.env`). */
  type Env = Option<map<string, string>>

  function Lookup(env: Env, k: string): Option<string>
  {
    if env.Some? && k in env.value then Some(env.value[k]) else None
  }

  /**
    * `import.meta.env?.[k] || process.env?.[k]`: the first value unless it is missing or
    * the empty string, which are falsy.
    */
  function ResolveEnv(k: string, metaEnv: Env, procEnv: Env): (v: Option<string>)
    ensures Lookup(metaEnv, k).Some? && Lookup(metaEnv, k).value != "" ==> v == Lookup(metaEnv, k)
    ensures Lookup(metaEnv, k).None? || Lookup(metaEnv, k).value == "" ==> v == Lookup(procEnv, k)
  {
    var first := Lookup(metaEnv, k);
    if first.Some? && first.value != "" then first else Lookup(procEnv, k)
  }

  /** `String(v)`: a missing value prints as "undefined". */
  function Stringify(v: Option<string>): string
  {
    if v.Some? then v.value else "undefined"
  }

  /** `String(v).toLowerCase() === 'true'`. */
  predicate IsTrueText(s: string)
  {
    Lower(s) == "true"
  }

  predicate KeyIsTrue(k: string, metaEnv: Env, procEnv: Env)
  {
    IsTrueText(Stringify(ResolveEnv(k, metaEnv, procEnv)))
  }

  /** `envFlagTrue(...keys)`: whether any of the keys resolves to "true" in any letter case. */
  function EnvFlagTrue(keys: seq<string>, metaEnv: Env, procEnv: Env): (r: bool)
    ensures r <==> exists i :: 0 <= i < |keys| && KeyIsTrue(keys[i], metaEnv, procEnv)
  {
    if keys == [] then false
    else KeyIsTrue(keys[0], metaEnv, procEnv) || EnvFlagTrue(keys[1..], metaEnv, procEnv)
  }

  /** A string is "true" in the flag's sense exactly when it is t, r, u, e in any mix of cases. */
  lemma {:induction false} TrueTextSpelling(s: string)
    ensures IsTrueText(s) <==>
      |s| == 4 && s[0] in "tT" && s[1] in "rR" && s[2] in "uU" && s[3] in "eE"
  {
    if IsTrueText(s) {
      assert Lower(s)[0] == 't' && Lower(s)[1] == 'r' && Lower(s)[2] == 'u' && Lower(s)[3] == 'e';
    }
    if |s| == 4 && s[0] in "tT" && s[1] in "rR" && s[2] in "uU" && s[3] in "eE" {
      assert Lower(s) == "true";
    }
  }

  /** A variable that is set nowhere never turns the flag on: "undefined" is not "true". */
  lemma {:induction false} UnsetKeyIsNotTrue(k: string, metaEnv: Env, procEnv: Env)
    requires Lookup(metaEnv, k).None? && Lookup(procEnv, k).None?
    ensures !KeyIsTrue(k, metaEnv, procEnv)
  {
    TrueTextSpelling("undefined");
  }

  /**
    * An empty value in `import.meta.env` is falsy, so the flag then reads `process.env`:
    * "" there and "TRUE" in the process environment turn the flag on.
    */
  lemma {:induction false} EmptyMetaValueFallsBack(k: string)
    ensures KeyIsTrue(k, Some(map[k := ""]), Some(map[k := "TRUE"]))
  {
    assert ResolveEnv(k, Some(map[k := ""]), Some(map[k := "TRUE"])) == Some("TRUE");
    TrueTextSpelling("TRUE");
  }

  /** A listed company: its key, its display name and its secret object. */
  datatype CompanySecret<S> = CompanySecret(key: string, displayName: string, secret: S)

  /** The imported local JSON module: its default export if any, and the module itself. */
  datatype LocalModule<S> = LocalModule(defaultExport: Option<S>, namespace: S)

  function LocalSecret<S>(m: LocalModule<S>): (c: CompanySecret<S>)
    ensures c.key == "local-dev" && c.displayName == "Local Dev"
    ensures m.defaultExport.Some? ==> c.secret == m.defaultExport.value
    ensures m.defaultExport.None? ==> c.secret == m.namespace
  {
    CompanySecret("local-dev", "Local Dev", m.defaultExport.GetOr(m.namespace))
  }

  /**
    * `tryLocal`: a failed import gives null; otherwise the file is a single company whose
    * secret is the module's default export, or the module when it has none.
    */
  function TryLocal<S>(file: Option<LocalModule<S>>): (r: Option<seq<CompanySecret<S>>>)
    ensures r.Some? <==> file.Some?
    ensures r.Some? ==> r.value == [LocalSecret(file.value)]
  {
    if file.Some? then Some([LocalSecret(file.value)]) else None
  }

  predicate HasSecrets<S>(aws: Option<seq<CompanySecret<S>>>)
  {
    aws.Some? && |aws.value| > 0
  }

  /**
    * `loadCompanySecrets`: `localFile` is the outcome of importing the local JSON file
    * (the same for both attempts) and `aws` what the AWS listing gave (None for null).
    */
  method LoadCompanySecrets<S>(metaEnv: Env, procEnv: Env, localFile: Option<LocalModule<S>>,
                               aws: Option<seq<CompanySecret<S>>>)
    returns (secrets: seq<CompanySecret<S>>)
    ensures EnvFlagTrue(USE_LOCAL_KEYS, metaEnv, procEnv) && localFile.Some? ==>
      secrets == [LocalSecret(localFile.value)]
    ensures !(EnvFlagTrue(USE_LOCAL_KEYS, metaEnv, procEnv) && localFile.Some?) && HasSecrets(aws) ==>
      secrets == aws.value
    ensures !HasSecrets(aws) ==>
      secrets == if localFile.Some? then [LocalSecret(localFile.value)] else []
  {
    var useLocal := EnvFlagTrue(USE_LOCAL_KEYS, metaEnv, procEnv);
    if useLocal {
      var local := TryLocal(localFile);
      if local.Some? {
        return local.value;
      }
    }
    if aws.Some? && |aws.value| > 0 {
      return aws.value;
    }
    var local := TryLocal(localFile);
    if local.Some? {
      return local.value;
    }
    return [];
  }
}
