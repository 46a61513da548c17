/** Settings forms and the secrets bound to them: a stored secret may only go on
    being used for the target it was entered for. */
module SettingsSecrets {
  import opened Text

  datatype Json = Str(text: string) | Bool(flag: bool) | Other
  datatype Doc = Null | Object(fields: map<string, Json>) | NotObject

  datatype Kind = Oidc | Prometheus | Kubernetes | Ai | Webhook | Mail

  const KINDS: seq<Kind> := [Oidc, Prometheus, Kubernetes, Ai, Webhook, Mail]

  function Section(k: Kind): string {
    match k
    case Oidc => "auth.oidc" case Prometheus => "prometheus" case Kubernetes => "kubernetes"
    case Ai => "ai" case Webhook => "notifications" case Mail => "mail"
  }

  function SecretKey(k: Kind): string {
    match k
    case Oidc => "oidc.client_secret" case Prometheus => "prometheus.token" case Kubernetes => "kubernetes.token"
    case Ai => "ai.api_key" case Webhook => "webhook.secret" case Mail => "mail.password"
  }

  predicate IsSettingsSecretKey(key: string) {
    key in {"oidc.client_secret", "prometheus.token", "kubernetes.token", "ai.api_key", "webhook.secret",
            "mail.password"}
  }

  // ---------- what a secret is bound to ----------

  function FieldsOf(d: Doc): map<string, Json> {
    if d.Object? then d.fields else map[]
  }

  function TextField(fields: map<string, Json>, key: string): string {
    if key in fields && fields[key].Str? then fields[key].text else ""
  }

  function BoolField(fields: map<string, Json>, key: string, default: bool): bool {
    if key in fields && fields[key].Bool? then fields[key].flag else default
  }

  function TargetKey(k: Kind): string {
    match k case Oidc => "issuer_url" case Mail => "smtp_host" case _ => "base_url"
  }

  function VerifyTLS(k: Kind, fields: map<string, Json>): bool {
    if k == Mail then !BoolField(fields, "skip_tls_verify", false) else BoolField(fields, "verify_tls", true)
  }

  /** storedIntegrationBindingMatches. */
  predicate BindingMatches(k: Kind, candidate: map<string, Json>, saved: map<string, Json>) {
    var candidateTarget := Authority(TextField(candidate, TargetKey(k)));
    var savedTarget := Authority(TextField(saved, TargetKey(k)));
    && candidateTarget != "" && savedTarget != "" && candidateTarget == savedTarget
    && (k == Oidc ==>
          var candidateClient := TrimSpace(TextField(candidate, "client_id"));
          candidateClient != "" && candidateClient == TrimSpace(TextField(saved, "client_id")))
    && VerifyTLS(k, candidate) == VerifyTLS(k, saved)
  }

  datatype Binding = Binding(target: string, clientId: string, verifyTLS: bool)

  function BindingOf(k: Kind, fields: map<string, Json>): Binding {
    Binding(Authority(TextField(fields, TargetKey(k))),
            if k == Oidc then TrimSpace(TextField(fields, "client_id")) else "",
            VerifyTLS(k, fields))
  }

  predicate Bindable(k: Kind, b: Binding) {
    b.target != "" && (k == Oidc ==> b.clientId != "")
  }

  /** The match is equality of bindings among those that name a target, so it
      composes over any number of edits. */
  lemma MatchIsBindingEquality(k: Kind, a: map<string, Json>, b: map<string, Json>)
    ensures BindingMatches(k, a, b) <==> BindingOf(k, a) == BindingOf(k, b) && Bindable(k, BindingOf(k, a))
  {
  }

  // ---------- one form submission ----------

  /** entered is the binding in force when the secret was submitted. */
  datatype Secret = Secret(plain: string, version: nat, entered: Binding)
  datatype State = State(settings: map<string, Doc>, secrets: map<string, Secret>)
  datatype Error = AiNotObject | UnsupportedSecret | EmptySecret | NotAnObject | OidcSecretRequired | ReentryRequired

  function Encode(key: string, d: Doc): Doc {
    if key == "ai" && d.Object?
        then Object(d.fields["provider" := Str("openai-compatible")]["streaming" := Bool(true)]) else d
  }

  function EncodeAll(values: map<string, Doc>): map<string, Doc> {
    map k | k in values :: Encode(k, values[k])
  }

  predicate ValuesOk(values: map<string, Doc>) {
    "ai" in values ==> values["ai"].Object?
  }

  predicate SecretsOk(secrets: map<string, string>) {
    forall k | k in secrets :: IsSettingsSecretKey(k) && TrimSpace(secrets[k]) != ""
  }

  function SavedDoc(settings: map<string, Doc>, section: string): Doc {
    if section in settings then settings[section] else Null
  }

  /** One turn of the loop of validateStoredSecretBindings. */
  function BindingError(k: Kind, s: State, values: map<string, Doc>, submitted: map<string, string>): Option<Error> {
    if Section(k) !in values || SecretKey(k) in submitted then None
    else
      var configured := SecretKey(k) in s.secrets;
      var candidate := values[Section(k)];
      var saved := SavedDoc(s.settings, Section(k));
      if candidate.NotObject? then Some(NotAnObject)
      else if k == Oidc && BoolField(FieldsOf(candidate), "enabled", false) && !configured then Some(OidcSecretRequired)
      else if !configured then None
      else if !saved.Object? || !BindingMatches(k, FieldsOf(candidate), saved.fields) then Some(ReentryRequired)
      else None
  }

  function FirstError(kinds: seq<Kind>, s: State, values: map<string, Doc>,
                      submitted: map<string, string>): Option<Error> {
    if kinds == [] then None
    else if BindingError(kinds[0], s, values, submitted).Some? then BindingError(kinds[0], s, values, submitted)
    else FirstError(kinds[1..], s, values, submitted)
  }

  predicate Accepted(s: State, values: map<string, Doc>, submitted: map<string, string>) {
    ValuesOk(values) && SecretsOk(submitted) && forall k: Kind :: BindingError(k, s, EncodeAll(values), submitted).None?
  }

  function KindOf(key: string): Kind {
    if key == "oidc.client_secret" then Oidc else if key == "prometheus.token" then Prometheus
    else if key == "kubernetes.token" then Kubernetes else if key == "ai.api_key" then Ai
    else if key == "webhook.secret" then Webhook else Mail
  }

  function Stored(s: State, settings: map<string, Doc>, key: string, plain: string): Secret {
    Secret(plain, if key in s.secrets then s.secrets[key].version + 1 else 1,
           BindingOf(KindOf(key), FieldsOf(SavedDoc(settings, Section(KindOf(key))))))
  }

  function Update(s: State, values: map<string, Doc>, submitted: map<string, string>): State {
    if !Accepted(s, values, submitted) then s
    else
      var settings := s.settings + EncodeAll(values);
      State(settings, s.secrets + map k | k in submitted :: Stored(s, settings, k, submitted[k]))
  }

  datatype Event = Submit(values: map<string, Doc>, secrets: map<string, string>) | DeleteSecret(key: string)

  function Step(s: State, e: Event): State {
    match e
    case Submit(values, secrets) => Update(s, values, secrets)
    case DeleteSecret(key) => s.(secrets := s.secrets - {key})
  }

  function Run(s: State, events: seq<Event>): State
    decreases |events|
  {
    if events == [] then s else Run(Step(s, events[0]), events[1..])
  }

  // ---------- over any run ----------

  /** Every stored secret was entered under the binding now stored. */
  predicate SecretsBound(s: State) {
    forall k: Kind | SecretKey(k) in s.secrets :: s.secrets[SecretKey(k)].entered
                                                 == BindingOf(k, FieldsOf(SavedDoc(s.settings, Section(k))))
  }

  predicate OidcEnabled(s: State) {
    BoolField(FieldsOf(SavedDoc(s.settings, "auth.oidc")), "enabled", false)
  }

  lemma UpdateKeepsBindings(s: State, values: map<string, Doc>, submitted: map<string, string>)
    requires SecretsBound(s)
    ensures SecretsBound(Update(s, values, submitted))
  {
    if Accepted(s, values, submitted) {
      var u := Update(s, values, submitted);
      forall k: Kind | SecretKey(k) in u.secrets
        ensures u.secrets[SecretKey(k)].entered == BindingOf(k, FieldsOf(SavedDoc(u.settings, Section(k))))
      {
        KeysDistinct(k);
        if SecretKey(k) !in submitted && Section(k) in values {
          assert BindingError(k, s, EncodeAll(values), submitted).None?;
          var saved := SavedDoc(s.settings, Section(k));
          MatchIsBindingEquality(k, FieldsOf(EncodeAll(values)[Section(k)]), saved.fields);
        }
      }
    }
  }

  lemma KeysDistinct(k: Kind)
    ensures IsSettingsSecretKey(SecretKey(k)) && KindOf(SecretKey(k)) == k
  {
  }

  lemma {:induction false} SecretsStayBound(s: State, events: seq<Event>)
    requires SecretsBound(s)
    ensures SecretsBound(Run(s, events))
    decreases |events|
  {
    if events != [] {
      match events[0] {
        case Submit(values, secrets) => UpdateKeepsBindings(s, values, secrets);
        case DeleteSecret(_) =>
      }
      SecretsStayBound(Step(s, events[0]), events[1..]);
    }
  }

  /** Unless its client secret is deleted, an enabled OIDC integration always has one. */
  lemma {:induction false} EnabledOidcKeepsItsSecret(s: State, events: seq<Event>)
    requires OidcEnabled(s) ==> "oidc.client_secret" in s.secrets
    requires forall e | e in events :: e != DeleteSecret("oidc.client_secret")
    ensures var t := Run(s, events); OidcEnabled(t) ==> "oidc.client_secret" in t.secrets
    decreases |events|
  {
    if events != [] {
      assert events[0] in events && forall e | e in events[1..] :: e in events;
      OidcStep(s, events[0]);
      EnabledOidcKeepsItsSecret(Step(s, events[0]), events[1..]);
    }
  }

  lemma OidcStep(s: State, e: Event)
    requires OidcEnabled(s) ==> "oidc.client_secret" in s.secrets
    requires e != DeleteSecret("oidc.client_secret")
    ensures OidcEnabled(Step(s, e)) ==> "oidc.client_secret" in Step(s, e).secrets
  {
    if e.Submit? && Accepted(s, e.values, e.secrets) {
      assert BindingError(Oidc, s, EncodeAll(e.values), e.secrets).None?;
      assert Section(Oidc) == "auth.oidc" && SecretKey(Oidc) == "oidc.client_secret";
    }
  }

  lemma EncodeKeepsBinding(k: Kind, fields: map<string, Json>)
    ensures Encode(Section(k), Object(fields)).Object?
    ensures BindingOf(k, Encode(Section(k), Object(fields)).fields) == BindingOf(k, fields)
    ensures k == Oidc ==> Encode(Section(k), Object(fields)) == Object(fields)
  {
  }

  lemma SectionsDistinct(j: Kind, k: Kind)
    requires Section(j) == Section(k)
    ensures j == k
  {
  }

  /** A form for one section asks nothing of the other integrations. */
  lemma OneSectionDecides(s: State, k: Kind, d: Doc)
    requires k == Ai ==> d.Object?
    ensures Accepted(s, map[Section(k) := d], map[])
            <==> BindingError(k, s, map[Section(k) := Encode(Section(k), d)], map[]).None?
  {
    var values := map[Section(k) := d];
    assert EncodeAll(values) == map[Section(k) := Encode(Section(k), d)];
    assert ValuesOk(values) by {
      if "ai" in values { assert Section(Ai) == "ai"; SectionsDistinct(k, Ai); }
    }
    forall other: Kind | other != k
      ensures BindingError(other, s, EncodeAll(values), map[]).None?
    {
      if Section(other) == Section(k) { SectionsDistinct(other, k); }
    }
  }

  lemma RetainedError(s: State, k: Kind, fields: map<string, Json>)
    requires SecretKey(k) in s.secrets
    ensures BindingError(k, s, map[Section(k) := Object(fields)], map[]).None? <==>
              SavedDoc(s.settings, Section(k)).Object?
                  && BindingMatches(k, fields, SavedDoc(s.settings, Section(k)).fields)
  {
    assert map[Section(k) := Object(fields)][Section(k)] == Object(fields);
  }

  /** Exactly when a form that keeps the stored secret is taken. */
  lemma RetainedSecretAccepted(s: State, k: Kind, candidate: map<string, Json>)
    requires SecretKey(k) in s.secrets
    ensures Accepted(s, map[Section(k) := Object(candidate)], map[]) <==>
              var saved := SavedDoc(s.settings, Section(k));
              saved.Object? && BindingOf(k, candidate) == BindingOf(k, saved.fields)
                  && Bindable(k, BindingOf(k, candidate))
  {
    OneSectionDecides(s, k, Object(candidate));
    EncodeKeepsBinding(k, candidate);
    var saved, encoded := SavedDoc(s.settings, Section(k)), Encode(Section(k), Object(candidate)).fields;
    RetainedError(s, k, encoded);
    if saved.Object? {
      MatchIsBindingEquality(k, encoded, saved.fields);
    }
  }

  // ---------- the transaction's code ----------

  lemma {:induction false} FirstErrorFindsAny(kinds: seq<Kind>, s: State, values: map<string, Doc>,
                                              submitted: map<string, string>)
    ensures FirstError(kinds, s, values, submitted).None?
            <==> forall k | k in kinds :: BindingError(k, s, values, submitted).None?
  {
    if kinds != [] {
      FirstErrorFindsAny(kinds[1..], s, values, submitted);
    }
  }

  lemma AllKinds(k: Kind)
    ensures k in KINDS
  {
    assert KINDS[0] == Oidc && KINDS[1] == Prometheus && KINDS[2] == Kubernetes && KINDS[3] == Ai
        && KINDS[4] == Webhook && KINDS[5] == Mail;
  }

  lemma FirstErrorDecides(s: State, values: map<string, Doc>, submitted: map<string, string>)
    ensures FirstError(KINDS, s, values, submitted).None?
            <==> forall k: Kind :: BindingError(k, s, values, submitted).None?
  {
    FirstErrorFindsAny(KINDS, s, values, submitted);
    forall k: Kind
      ensures k in KINDS
    {
      AllKinds(k);
    }
  }

  class SettingsTables {
    var settings: map<string, Doc>
    var secrets: map<string, Secret>

    function View(): State
      reads this
    {
      State(settings, secrets)
    }

    constructor ()
      ensures View() == State(map[], map[])
    {
      settings, secrets := map[], map[];
    }

    method ValidateStoredSecretBindings(values: map<string, Doc>, submitted: map<string, string>)
        returns (error: Option<Error>)
      ensures error == FirstError(KINDS, View(), values, submitted)
    {
      for i := 0 to |KINDS|
        invariant FirstError(KINDS[i..], View(), values, submitted) == FirstError(KINDS, View(), values, submitted)
      {
        var k := KINDS[i];
        assert KINDS[i..][0] == k && KINDS[i..][1..] == KINDS[i + 1..];
        if Section(k) !in values || SecretKey(k) in submitted {
          continue;
        }
        var configured := SecretKey(k) in secrets;
        var candidate := values[Section(k)];
        if candidate.NotObject? {
          return Some(NotAnObject);
        }
        if k == Oidc && BoolField(FieldsOf(candidate), "enabled", false) && !configured {
          return Some(OidcSecretRequired);
        }
        if !configured {
          continue;
        }
        var saved := SavedDoc(settings, Section(k));
        if !saved.Object? || !BindingMatches(k, FieldsOf(candidate), saved.fields) {
          return Some(ReentryRequired);
        }
      }
      error := None;
    }

    method EncodeValues(values: map<string, Doc>) returns (encoded: Option<map<string, Doc>>)
      ensures encoded == if ValuesOk(values) then Some(EncodeAll(values)) else None
    {
      var rest, done := values.Keys, map[];
      while rest != {}
        invariant rest <= values.Keys
        invariant done == map k | k in values && k !in rest :: Encode(k, values[k])
        invariant "ai" in values && "ai" !in rest ==> values["ai"].Object?
        decreases rest
      {
        var key :| key in rest;
        rest := rest - {key};
        if key == "ai" && !values[key].Object? {
          return None;
        }
        done := done[key := Encode(key, values[key])];
      }
      assert done == EncodeAll(values);
      encoded := Some(done);
    }

    method EncryptAll(after: map<string, Doc>, submitted: map<string, string>) returns (written: map<string, Secret>)
      ensures written == map k | k in submitted :: Stored(View(), after, k, submitted[k])
    {
      var rest := submitted.Keys;
      written := map[];
      while rest != {}
        invariant rest <= submitted.Keys && written.Keys == submitted.Keys - rest
        invariant forall k | k in written :: written[k] == Stored(View(), after, k, submitted[k])
        decreases rest
      {
        var key :| key in rest;
        rest := rest - {key};
        var row := Encrypt(after, key, submitted[key]);
        written := written[key := row];
      }
    }

    method Encrypt(after: map<string, Doc>, key: string, plain: string) returns (row: Secret)
      ensures row == Stored(View(), after, key, plain)
    {
      var version := if key in secrets then secrets[key].version + 1 else 1;
      var kind := KindOf(key);
      row := Secret(plain, version, BindingOf(kind, FieldsOf(SavedDoc(after, Section(kind)))));
    }

    method UpdateSettingsAndSecrets(values: map<string, Doc>, submitted: map<string, string>) returns (ok: bool)
      modifies this
      ensures View() == Update(old(View()), values, submitted)
      ensures ok <==> Accepted(old(View()), values, submitted)
    {
      var encoded := EncodeValues(values);
      if encoded.None? || !SecretsOk(submitted) {
        return false;
      }
      var error := ValidateStoredSecretBindings(encoded.value, submitted);
      FirstErrorDecides(View(), encoded.value, submitted);
      if error.Some? {
        return false;
      }
      var after := settings + encoded.value;
      var written := EncryptAll(after, submitted);
      settings, secrets := after, secrets + written;
      ok := true;
    }

    method DeleteSecret(key: string)
      modifies this
      ensures View() == Step(old(View()), Event.DeleteSecret(key))
    {
      secrets := secrets - {key};
    }
  }
}
