/**
 * Credential lookup and the startup check of the TypeScript source
 * (src/shared/notionServer.ts): `getNotionApiKey` is a chain of `||` over
 * five environment variables, with no trimming and no registry branch.
 */
module SrcCredential {
  import opened Json
  import opened JsText
  import DistCredential

  /** The variables of the `||` chain, in order; GEMINI_API_KEY is accepted here only. */
  const KeyNames: seq<string> :=
    ["NOTION_API_KEY", "GEMINI_NOTION_API_KEY", "GEMINI_API_KEY", "NOTION_TOKEN", "NOTION_SECRET"]

  /** Truthiness of an environment value: defined and not the empty string. */
  predicate IsSet(v: Option<string>) {
    v.Some? && v.value != ""
  }

  /** `vs[0] || vs[1] || ... || vs[n-1]`: the first truthy operand, or else the last one. */
  function OrChain(vs: seq<Option<string>>): Option<string>
    requires |vs| > 0
  {
    if |vs| == 1 || IsSet(vs[0]) then vs[0] else OrChain(vs[1..])
  }

  /** `getNotionApiKey()` over the process environment `env`. */
  function GetNotionApiKey(env: map<string, string>): Option<string> {
    OrChain(Values(env))
  }

  /** `process.env.NOTION_API_KEY`, ..., `process.env.NOTION_SECRET`, the operands of the chain. */
  function Values(env: map<string, string>): (vs: seq<Option<string>>)
    ensures |vs| == |KeyNames|
  {
    seq(|KeyNames|, i requires 0 <= i < |KeyNames| => DistCredential.Read(env, KeyNames[i]))
  }

  /**
   * The chain yields the first truthy operand; when there is none it yields
   * the last operand, which is then undefined or the empty string.
   */
  lemma {:induction false} OrChainFirstTruthy(vs: seq<Option<string>>)
    requires |vs| > 0
    ensures IsSet(OrChain(vs)) <==> exists i :: 0 <= i < |vs| && IsSet(vs[i])
    ensures forall i :: 0 <= i < |vs| && IsSet(vs[i]) && (forall j :: 0 <= j < i ==> !IsSet(vs[j])) ==>
      OrChain(vs) == vs[i]
    ensures (forall i :: 0 <= i < |vs| ==> !IsSet(vs[i])) ==> OrChain(vs) == vs[|vs| - 1]
  {
    if |vs| > 1 && !IsSet(vs[0]) {
      OrChainFirstTruthy(vs[1..]);
      assert forall i :: 1 <= i < |vs| ==> vs[i] == vs[1..][i - 1];
    }
  }

  /**
   * `getNotionApiKey` returns the value of the first variable, in the order
   * of KeyNames, that is set to a non-empty string (untrimmed); with none it
   * returns NOTION_SECRET's own value, undefined or "".
   */
  lemma GetNotionApiKeyFirstSet(env: map<string, string>)
    ensures IsSet(GetNotionApiKey(env)) <==>
      exists i :: 0 <= i < |KeyNames| && IsSet(DistCredential.Read(env, KeyNames[i]))
    ensures forall i ::
      (0 <= i < |KeyNames| && IsSet(DistCredential.Read(env, KeyNames[i])) &&
       forall j :: 0 <= j < i ==> !IsSet(DistCredential.Read(env, KeyNames[j]))) ==>
      GetNotionApiKey(env) == DistCredential.Read(env, KeyNames[i])
    ensures !IsSet(GetNotionApiKey(env)) ==> GetNotionApiKey(env) == DistCredential.Read(env, "NOTION_SECRET")
  {
    var vs := Values(env);
    OrChainFirstTruthy(vs);
    assert forall i :: 0 <= i < |KeyNames| ==> vs[i] == DistCredential.Read(env, KeyNames[i]);
  }

  datatype Launch = Exit(status: int, diagnostic: string) | Serve(auth: string)

  /** `buildNotionServer`'s start: `if (!NOTION_API_KEY)` exit with status 1, else authenticate with the key as found. */
  function Startup(key: Option<string>): (l: Launch)
    ensures l.Exit? <==> !IsSet(key)
    ensures l.Exit? ==> l.status != 0 && l.diagnostic == DistCredential.MissingKeyDiagnostic
    ensures l.Serve? ==> Some(l.auth) == key
  {
    if !IsSet(key) then Exit(1, DistCredential.MissingKeyDiagnostic) else Serve(key.value)
  }

  /** A white-space-only key is used as it is here, while the built copy rejects it. */
  lemma BlankKeyAcceptedOnlyHere(v: string)
    requires v != "" && AllSpace(v)
    ensures var env := map["NOTION_API_KEY" := v];
      && Startup(GetNotionApiKey(env)) == Serve(v)
      && DistCredential.FirstUsable(DistCredential.Candidates(false, env, map[])).None?
  {
    var env := map["NOTION_API_KEY" := v];
    FirstOperandSet(v);
    OnlyNotionApiKeySet(v);
    TrimEmptyIffAllSpace(v);
    DistCredential.FirstUsableNone(DistCredential.Candidates(false, env, map[]));
  }

  /** A non-empty NOTION_API_KEY is what the chain yields, untrimmed. */
  lemma FirstOperandSet(v: string)
    requires v != ""
    ensures GetNotionApiKey(map["NOTION_API_KEY" := v]) == Some(v)
  {
    assert Values(map["NOTION_API_KEY" := v])[0] == Some(v);
  }

  /** With only NOTION_API_KEY in the environment, the built copy has one candidate value, the first. */
  lemma OnlyNotionApiKeySet(v: string)
    ensures var cs := DistCredential.Candidates(false, map["NOTION_API_KEY" := v], map[]);
      && |cs| == 4 && cs[0].value == Some(v)
      && forall i :: 1 <= i < |cs| ==> cs[i].value.None?
  {
    assert |"GEMINI_NOTION_API_KEY"| != |"NOTION_API_KEY"|;
    assert |"NOTION_TOKEN"| != |"NOTION_API_KEY"|;
    assert |"NOTION_SECRET"| != |"NOTION_API_KEY"|;
  }

  /** GEMINI_API_KEY alone starts this copy, and not the built one. */
  lemma GeminiApiKeyAcceptedOnlyHere()
    ensures var env := map["GEMINI_API_KEY" := "secret"];
      && Startup(GetNotionApiKey(env)) == Serve("secret")
      && DistCredential.FirstUsable(DistCredential.Candidates(false, env, map[])).None?
  {
    var env := map["GEMINI_API_KEY" := "secret"];
    var vs := Values(env);
    assert vs[0].None? && vs[1].None? && vs[2] == Some("secret");
    var cs := DistCredential.Candidates(false, env, map[]);
    forall i | 0 <= i < |cs| ensures cs[i].value.None? {
      assert DistCredential.KeyNames[i] != "GEMINI_API_KEY";
    }
    DistCredential.FirstUsableNone(cs);
  }

  /** NOTION_SECRET set to "" makes the chain yield "" rather than undefined; the server still exits. */
  lemma EmptySecretYieldsEmptyKey()
    ensures var env := map["NOTION_SECRET" := ""];
      GetNotionApiKey(env) == Some("") && Startup(GetNotionApiKey(env)).Exit?
  {
    var env := map["NOTION_SECRET" := ""];
    var vs := Values(env);
    forall i | 0 <= i < 4 ensures vs[i].None? {
      assert KeyNames[i] != "NOTION_SECRET";
    }
    assert vs[4] == Some("");
    OrChainFirstTruthy(vs);
  }

  /** The value of an environment variable needs no trimming (or is undefined). */
  predicate Trimmed(v: Option<string>) {
    v.Some? ==> Trim(v.value) == v.value
  }

  /**
   * When every value is already trimmed and GEMINI_API_KEY is not set, the
   * two copies agree: the built copy (off Windows) resolves a key exactly
   * when this one finds a truthy key, and the keys are equal.
   */
  lemma CopiesAgreeOnTrimmedValues(env: map<string, string>)
    requires "GEMINI_API_KEY" !in env
    requires forall name :: name in env ==> Trimmed(Some(env[name]))
    ensures var resolved := DistCredential.FirstUsable(DistCredential.Candidates(false, env, map[]));
      && (resolved.Some? <==> IsSet(GetNotionApiKey(env)))
      && (resolved.Some? ==> Some(resolved.value.key) == GetNotionApiKey(env))
  {
    var cs := DistCredential.Candidates(false, env, map[]);
    var vs := Values(env);
    SharedOperands(env);
    TrimmedOperands(env);
    AgreeWithoutThird(cs, vs);
  }

  /** The scan over four candidates agrees with a five-operand chain whose unset third operand they skip. */
  lemma AgreeWithoutThird(cs: seq<DistCredential.Candidate>, vs: seq<Option<string>>)
    requires |cs| == 4 && |vs| == 5 && vs[2].None?
    requires cs[0].value == vs[0] && cs[1].value == vs[1] && cs[2].value == vs[3] && cs[3].value == vs[4]
    requires forall i :: 0 <= i < |vs| ==> Trimmed(vs[i])
    ensures var resolved := DistCredential.FirstUsable(cs);
      && (resolved.Some? <==> IsSet(OrChain(vs)))
      && (resolved.Some? ==> Some(resolved.value.key) == OrChain(vs))
  {
    var ws := [vs[0], vs[1], vs[3], vs[4]];
    DropThird(vs);
    OrChainSkip(vs, 2);
    forall i | 0 <= i < |cs| ensures cs[i].value == ws[i] && Trimmed(ws[i]) {
      if i == 0 { assert Trimmed(vs[0]); }
      else if i == 1 { assert Trimmed(vs[1]); }
      else if i == 2 { assert Trimmed(vs[3]); }
      else { assert Trimmed(vs[4]); }
    }
    ChainsAgree(cs, ws);
  }

  lemma DropThird<T>(vs: seq<T>)
    requires |vs| == 5
    ensures vs[..2] + vs[3..] == [vs[0], vs[1], vs[3], vs[4]]
  {
  }

  /** Off Windows the built copy's candidates are this chain's operands without GEMINI_API_KEY. */
  lemma SharedOperands(env: map<string, string>)
    requires "GEMINI_API_KEY" !in env
    ensures var cs, vs := DistCredential.Candidates(false, env, map[]), Values(env);
      && |cs| == 4 && vs[2].None?
      && cs[0].value == vs[0] && cs[1].value == vs[1] && cs[2].value == vs[3] && cs[3].value == vs[4]
  {
    DistCredential.CandidatesPerPlatform(env, map[]);
    var vs := Values(env);
    assert vs[0] == DistCredential.Read(env, DistCredential.KeyNames[0]);
    assert vs[1] == DistCredential.Read(env, DistCredential.KeyNames[1]);
    assert vs[3] == DistCredential.Read(env, DistCredential.KeyNames[2]);
    assert vs[4] == DistCredential.Read(env, DistCredential.KeyNames[3]);
  }

  lemma TrimmedOperands(env: map<string, string>)
    requires forall name :: name in env ==> Trimmed(Some(env[name]))
    ensures forall i :: 0 <= i < |Values(env)| ==> Trimmed(Values(env)[i])
  {
  }

  /** An unset operand that is not the last one can be dropped from a `||` chain. */
  lemma {:induction false} OrChainSkip(vs: seq<Option<string>>, k: nat)
    requires k + 1 < |vs| && !IsSet(vs[k])
    ensures OrChain(vs) == OrChain(vs[..k] + vs[k + 1..])
  {
    var ws := vs[..k] + vs[k + 1..];
    if k == 0 {
      assert ws == vs[1..];
    } else if !IsSet(vs[0]) {
      assert ws[0] == vs[0] && ws[1..] == vs[1..][..k - 1] + vs[1..][k..];
      OrChainSkip(vs[1..], k - 1);
    } else {
      assert ws[0] == vs[0];
    }
  }

  /** Over trimmed values, the candidate scan and the `||` chain pick the same operand. */
  lemma {:induction false} ChainsAgree(cs: seq<DistCredential.Candidate>, vs: seq<Option<string>>)
    requires |cs| == |vs| > 0
    requires forall i :: 0 <= i < |cs| ==> cs[i].value == vs[i] && Trimmed(vs[i])
    ensures var resolved := DistCredential.FirstUsable(cs);
      && (resolved.Some? <==> IsSet(OrChain(vs)))
      && (resolved.Some? ==> Some(resolved.value.key) == OrChain(vs))
  {
    if !IsSet(vs[0]) && |vs| > 1 {
      ChainsAgree(cs[1..], vs[1..]);
    }
  }
}
