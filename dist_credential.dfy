/**
 * Credential resolution and the startup check of the built server
 * (dist/shared/notionServer.js): `resolveNotionApiKey` scans four named
 * candidates in a fixed order and keeps the first whose trimmed value is
 * not empty; `buildNotionServer` stops the process when none qualifies.
 *
 * The process environment is a map from variable name to value. On Windows
 * the candidates come from the user-scoped registry store instead; the map
 * `registry` holds, per name, what the registry query yields (no entry
 * when the query fails or finds nothing).
 */
module DistCredential {
  import opened Json
  import opened JsText

  /** The accepted variable names, in the order they are tried. */
  const KeyNames: seq<string> := ["NOTION_API_KEY", "GEMINI_NOTION_API_KEY", "NOTION_TOKEN", "NOTION_SECRET"]

  datatype Candidate = Candidate(value: Option<string>, source: string)

  /** A resolved key and the label of the source that supplied it. */
  datatype Credential = Credential(key: string, source: string)

  function Read(store: map<string, string>, name: string): Option<string> {
    if name in store then Some(store[name]) else None
  }

  /** The candidate list for the platform, as the source builds it. */
  function Candidates(onWindows: bool, env: map<string, string>, registry: map<string, string>): seq<Candidate> {
    if onWindows then
      [ Candidate(Read(registry, "NOTION_API_KEY"), "HKCU:NOTION_API_KEY"),
        Candidate(Read(registry, "GEMINI_NOTION_API_KEY"), "HKCU:GEMINI_NOTION_API_KEY"),
        Candidate(Read(registry, "NOTION_TOKEN"), "HKCU:NOTION_TOKEN"),
        Candidate(Read(registry, "NOTION_SECRET"), "HKCU:NOTION_SECRET") ]
    else
      [ Candidate(Read(env, "NOTION_API_KEY"), "NOTION_API_KEY"),
        Candidate(Read(env, "GEMINI_NOTION_API_KEY"), "GEMINI_NOTION_API_KEY"),
        Candidate(Read(env, "NOTION_TOKEN"), "NOTION_TOKEN"),
        Candidate(Read(env, "NOTION_SECRET"), "NOTION_SECRET") ]
  }

  /** Both branches try the same four names in the same order; only the labels differ, by the "HKCU:" prefix. */
  lemma CandidatesPerPlatform(env: map<string, string>, registry: map<string, string>)
    ensures |Candidates(true, env, registry)| == |Candidates(false, env, registry)| == |KeyNames|
    ensures forall i :: 0 <= i < |KeyNames| ==>
      && Candidates(false, env, registry)[i] == Candidate(Read(env, KeyNames[i]), KeyNames[i])
      && Candidates(true, env, registry)[i] == Candidate(Read(registry, KeyNames[i]), "HKCU:" + KeyNames[i])
  {
    var w, e := Candidates(true, env, registry), Candidates(false, env, registry);
    RegistryLabels();
    forall i | 0 <= i < |KeyNames|
      ensures e[i] == Candidate(Read(env, KeyNames[i]), KeyNames[i])
      ensures w[i] == Candidate(Read(registry, KeyNames[i]), "HKCU:" + KeyNames[i])
    {
      if i == 0 {} else if i == 1 {} else if i == 2 {} else {}
    }
  }

  lemma RegistryLabels()
    ensures "HKCU:" + KeyNames[0] == "HKCU:NOTION_API_KEY"
    ensures "HKCU:" + KeyNames[1] == "HKCU:GEMINI_NOTION_API_KEY"
    ensures "HKCU:" + KeyNames[2] == "HKCU:NOTION_TOKEN"
    ensures "HKCU:" + KeyNames[3] == "HKCU:NOTION_SECRET"
  {
  }

  /** `typeof c.value === 'string' && c.value.trim().length > 0` */
  predicate Usable(c: Candidate) {
    c.value.Some? && Trim(c.value.value) != ""
  }

  /** The credential of the first usable candidate, if any. */
  function FirstUsable(cs: seq<Candidate>): Option<Credential> {
    if cs == [] then None
    else if Usable(cs[0]) then Some(Credential(Trim(cs[0].value.value), cs[0].source))
    else FirstUsable(cs[1..])
  }

  /** FirstUsable finds nothing exactly when no candidate is usable. */
  lemma {:induction false} FirstUsableNone(cs: seq<Candidate>)
    ensures FirstUsable(cs).None? <==> forall i :: 0 <= i < |cs| ==> !Usable(cs[i])
  {
    if cs != [] && !Usable(cs[0]) {
      FirstUsableNone(cs[1..]);
      assert forall i :: 1 <= i < |cs| ==> cs[i] == cs[1..][i - 1];
    }
  }

  /** Otherwise it returns the trimmed value and the label of the first usable candidate. */
  lemma {:induction false} FirstUsableIsFirstMatch(cs: seq<Candidate>, i: nat)
    requires i < |cs| && Usable(cs[i])
    requires forall j :: 0 <= j < i ==> !Usable(cs[j])
    ensures FirstUsable(cs) == Some(Credential(Trim(cs[i].value.value), cs[i].source))
  {
    if i > 0 {
      assert !Usable(cs[0]);
      assert forall j :: 0 <= j < i - 1 ==> cs[1..][j] == cs[j + 1];
      FirstUsableIsFirstMatch(cs[1..], i - 1);
    }
  }

  /** The key FirstUsable returns is never empty and is already trimmed. */
  lemma {:induction false} FirstUsableKeyTrimmed(cs: seq<Candidate>)
    ensures FirstUsable(cs).Some? ==>
      FirstUsable(cs).value.key != "" && Trim(FirstUsable(cs).value.key) == FirstUsable(cs).value.key
  {
    if cs != [] {
      if Usable(cs[0]) {
        TrimIdempotent(cs[0].value.value);
      } else {
        FirstUsableKeyTrimmed(cs[1..]);
      }
    }
  }

  /** `resolveNotionApiKey()`: the loop over the candidates, with early return. */
  method ResolveNotionApiKey(onWindows: bool, env: map<string, string>, registry: map<string, string>)
    returns (r: Option<Credential>)
    ensures r == FirstUsable(Candidates(onWindows, env, registry))
  {
    var candidates := Candidates(onWindows, env, registry);
    for i := 0 to |candidates|
      invariant FirstUsable(candidates) == FirstUsable(candidates[i..])
    {
      var c := candidates[i];
      assert candidates[i..][1..] == candidates[i + 1..];
      if c.value.Some? && |Trim(c.value.value)| > 0 {
        return Some(Credential(Trim(c.value.value), c.source));
      }
    }
    return None;
  }

  /** How a server build ends: the process exits, or the server is built around a key. */
  datatype Launch = Exit(status: int, diagnostic: string) | Serve(auth: string, notice: string)

  const DiagnosticLead: string := "No Notion API key found. Set one of: "

  /** The literal message "No Notion API key found. Set one of: NOTION_API_KEY, GEMINI_NOTION_API_KEY, NOTION_TOKEN, NOTION_SECRET." */
  const MissingKeyDiagnostic: string := Concat(DiagnosticParts)

  const DiagnosticParts: seq<string> :=
    [DiagnosticLead, KeyNames[0], ", ", KeyNames[1], ", ", KeyNames[2], ", ", KeyNames[3], "."]

  /** `buildNotionServer`'s start: exit with status 1 when no key was resolved, else log the source and use the key. */
  function Startup(resolved: Option<Credential>): (l: Launch)
    ensures l.Exit? <==> resolved.None? || resolved.value.key == ""
    ensures l.Exit? ==> l.status != 0 && l.diagnostic == MissingKeyDiagnostic
    ensures l.Serve? ==> l.auth == resolved.value.key
  {
    if resolved.None? || resolved.value.key == "" then Exit(1, MissingKeyDiagnostic)
    else Serve(resolved.value.key, "Using Notion API key from: " + resolved.value.source)
  }

  /**
   * The server starts exactly when some candidate is usable, and then
   * authenticates with the first usable candidate's trimmed value; otherwise
   * the process exits with a non-zero status.
   */
  lemma StartsIffSomeCandidateUsable(cs: seq<Candidate>)
    ensures Startup(FirstUsable(cs)).Serve? <==> exists i :: 0 <= i < |cs| && Usable(cs[i])
  {
    FirstUsableNone(cs);
    FirstUsableKeyTrimmed(cs);
  }

  predicate Mentions(text: string, name: string) {
    exists i :: 0 <= i <= |text| && StartsWith(text[i..], name)
  }

  /** The diagnostic names every accepted variable. */
  lemma DiagnosticNamesEveryKey()
    ensures forall name :: name in KeyNames ==> Mentions(MissingKeyDiagnostic, name)
  {
    NamedAt(DiagnosticParts, 1);
    NamedAt(DiagnosticParts, 3);
    NamedAt(DiagnosticParts, 5);
    NamedAt(DiagnosticParts, 7);
  }

  function Concat(parts: seq<string>): string {
    if parts == [] then "" else parts[0] + Concat(parts[1..])
  }

  lemma {:induction false} NamedAt(parts: seq<string>, k: nat)
    requires k < |parts|
    ensures Mentions(Concat(parts), parts[k])
  {
    if k == 0 {
      assert Concat(parts)[0..][..|parts[0]|] == parts[0];
    } else {
      NamedAt(parts[1..], k - 1);
      var i :| 0 <= i <= |Concat(parts[1..])| && StartsWith(Concat(parts[1..])[i..], parts[k]);
      assert Concat(parts)[|parts[0]| + i..] == Concat(parts[1..])[i..];
    }
  }
}
