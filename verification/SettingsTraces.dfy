/** Which secret and which settings are stored: those of the last accepted form
    that brought them, and exactly which forms are accepted. */
module SettingsTraces {
  import opened Text
  import opened SettingsSecrets

  // ---------- what a binding is ----------

  /** The setting that names an integration's target. */
  function TargetText(k: Kind, fields: map<string, Json>): string {
    if k == Oidc then TextField(fields, "issuer_url")
    else if k == Mail then TextField(fields, "smtp_host")
    else TextField(fields, "base_url")
  }

  /** TLS certificates are checked unless the form says otherwise; the mail form
      says so the other way round. */
  predicate ChecksTLS(k: Kind, fields: map<string, Json>) {
    if k == Mail then !("skip_tls_verify" in fields && fields["skip_tls_verify"] == Bool(true))
    else !("verify_tls" in fields && fields["verify_tls"] == Bool(false))
  }

  /** Two settings are one binding exactly when target, client and TLS mode agree,
      up to blanks and trailing slashes. */
  lemma SameBindingExactly(k: Kind, a: map<string, Json>, b: map<string, Json>)
    ensures BindingOf(k, a) == BindingOf(k, b)
            <==> && TrimSlashes(TrimSpace(TargetText(k, a))) == TrimSlashes(TrimSpace(TargetText(k, b)))
                 && (k == Oidc ==> TrimSpace(TextField(a, "client_id")) == TrimSpace(TextField(b, "client_id")))
                 && (ChecksTLS(k, a) <==> ChecksTLS(k, b))
  {
  }

  // ---------- what a form stores ----------

  /** The AI section is completed with the only provider there is; every other
      section is stored as sent. */
  lemma SectionsAreStored(s: State, values: map<string, Doc>, submitted: map<string, string>, section: string)
    requires Accepted(s, values, submitted)
    ensures var u := Update(s, values, submitted).settings;
            && (section !in values ==> (section in u <==> section in s.settings)
                                       && (section in u ==> u[section] == s.settings[section]))
            && (section in values && section != "ai" ==> section in u && u[section] == values[section])
            && (section in values && section == "ai" ==>
                  && section in u && u[section].Object?
                  && u[section].fields.Keys == values[section].fields.Keys + {"provider", "streaming"}
                  && u[section].fields["provider"] == Str("openai-compatible")
                  && u[section].fields["streaming"] == Bool(true)
                  && forall f | f in values[section].fields && f != "provider" && f != "streaming" ::
                       u[section].fields[f] == values[section].fields[f])
  {
  }

  /** Every submitted secret is stored as entered, one version on, and bound to
      what the form made the binding; every other secret is as it was. */
  lemma SubmittedSecretsAreStored(s: State, values: map<string, Doc>, submitted: map<string, string>, key: string)
    requires Accepted(s, values, submitted)
    ensures var u := Update(s, values, submitted);
            && (key in submitted ==>
                  && key in u.secrets && u.secrets[key].plain == submitted[key]
                  && u.secrets[key].version == (if key in s.secrets then s.secrets[key].version else 0) + 1
                  && u.secrets[key].entered == BindingNow(u, key))
            && (key !in submitted ==> (key in u.secrets <==> key in s.secrets)
                                      && (key in s.secrets ==> u.secrets[key] == s.secrets[key]))
  {
  }

  /** The binding that the settings give the secret's integration. */
  function BindingNow(s: State, key: string): Binding {
    BindingOf(KindOf(key), FieldsOf(SavedDoc(s.settings, Section(KindOf(key)))))
  }

  lemma RefusedFormsChangeNothing(s: State, values: map<string, Doc>, submitted: map<string, string>)
    requires !Accepted(s, values, submitted)
    ensures Step(s, Submit(values, submitted)) == s
  {
  }

  // ---------- over any run ----------

  lemma {:induction false} RunSnoc(s: State, front: seq<Event>, last: Event)
    ensures Run(s, front + [last]) == Step(Run(s, front), last)
    decreases |front|
  {
    if front == [] {
      assert [last][1..] == [];
      assert Run(s, [last]) == Run(Step(s, last), []);
    } else {
      assert (front + [last])[1..] == front[1..] + [last];
      RunSnoc(Step(s, front[0]), front[1..], last);
    }
  }

  /** Event i was an accepted form that brought the secret. */
  predicate Enters(s: State, events: seq<Event>, i: int, key: string) {
    0 <= i < |events| && events[i].Submit? && key in events[i].secrets
    && Accepted(Run(s, events[..i]), events[i].values, events[i].secrets)
  }

  predicate Deletes(events: seq<Event>, i: int, key: string) {
    0 <= i < |events| && events[i] == DeleteSecret(key)
  }

  /** No event from i on enters or deletes the secret. */
  predicate QuietFrom(s: State, events: seq<Event>, i: int, key: string) {
    forall j | i <= j < |events| :: !Enters(s, events, j, key) && !Deletes(events, j, key)
  }

  /** The secret as event i entered it, bound to the settings right after it. */
  predicate AsEntered(s: State, events: seq<Event>, i: int, key: string, secret: Secret)
    requires Enters(s, events, i, key)
  {
    secret.plain == events[i].secrets[key] && secret.entered == BindingNow(Run(s, events[..i + 1]), key)
  }

  ghost predicate Explained(s: State, events: seq<Event>, key: string) {
    var t := Run(s, events);
    if key in t.secrets then
      || (QuietFrom(s, events, 0, key) && key in s.secrets && t.secrets[key] == s.secrets[key])
      || exists i :: Enters(s, events, i, key) && AsEntered(s, events, i, key, t.secrets[key])
                     && QuietFrom(s, events, i + 1, key)
    else
      || (QuietFrom(s, events, 0, key) && key !in s.secrets)
      || exists i :: Deletes(events, i, key) && QuietFrom(s, events, i + 1, key)
  }

  lemma PrefixesStay(s: State, front: seq<Event>, last: Event, key: string)
    ensures forall i | 0 <= i <= |front| :: (front + [last])[..i] == front[..i]
    ensures forall i | 0 <= i < |front| :: Enters(s, front + [last], i, key) <==> Enters(s, front, i, key)
    ensures forall i | 0 <= i < |front| :: Deletes(front + [last], i, key) <==> Deletes(front, i, key)
  {
  }

  lemma QuietLonger(s: State, front: seq<Event>, last: Event, i: int, key: string)
    requires 0 <= i <= |front| && QuietFrom(s, front, i, key)
    requires !Enters(s, front + [last], |front|, key) && !Deletes(front + [last], |front|, key)
    ensures QuietFrom(s, front + [last], i, key)
  {
    PrefixesStay(s, front, last, key);
  }

  lemma QuietStep(s: State, front: seq<Event>, last: Event, key: string)
    requires Explained(s, front, key)
    requires !Enters(s, front + [last], |front|, key) && !Deletes(front + [last], |front|, key)
    ensures Explained(s, front + [last], key)
  {
    var events := front + [last];
    var before, after := Run(s, front), Run(s, events);
    RunSnoc(s, front, last);
    PrefixesStay(s, front, last, key);
    assert events[..|front|] == front;
    assert key in after.secrets <==> key in before.secrets;
    assert key in before.secrets ==> after.secrets[key] == before.secrets[key];
    if QuietFrom(s, front, 0, key) {
      QuietLonger(s, front, last, 0, key);
    }
    if i :| Enters(s, front, i, key) && key in before.secrets && AsEntered(s, front, i, key, before.secrets[key])
            && QuietFrom(s, front, i + 1, key) {
      QuietLonger(s, front, last, i + 1, key);
      assert Enters(s, events, i, key) && AsEntered(s, events, i, key, after.secrets[key]);
    }
    if i :| Deletes(front, i, key) && QuietFrom(s, front, i + 1, key) {
      QuietLonger(s, front, last, i + 1, key);
      assert Deletes(events, i, key);
    }
  }

  lemma LastIsQuiet(s: State, front: seq<Event>, last: Event, key: string)
    ensures QuietFrom(s, front + [last], |front| + 1, key)
    ensures (front + [last])[..|front|] == front && (front + [last])[..|front| + 1] == front + [last]
  {
  }

  lemma EnterStep(s: State, front: seq<Event>, last: Event, key: string)
    requires Enters(s, front + [last], |front|, key)
    ensures Explained(s, front + [last], key)
  {
    var events, i := front + [last], |front|;
    RunSnoc(s, front, last);
    LastIsQuiet(s, front, last, key);
    SubmittedSecretsAreStored(Run(s, front), last.values, last.secrets, key);
    assert AsEntered(s, events, i, key, Run(s, events).secrets[key]);
  }

  lemma DeleteStep(s: State, front: seq<Event>, last: Event, key: string)
    requires last == DeleteSecret(key)
    ensures Explained(s, front + [last], key)
  {
    RunSnoc(s, front, last);
    LastIsQuiet(s, front, last, key);
    assert Deletes(front + [last], |front|, key);
  }

  /** A stored secret is the text the last accepted form to submit it brought,
      labelled with the binding of that moment; a secret is missing exactly when
      it was never entered or has been deleted since. */
  lemma {:induction false} SecretsAreAsLastEntered(s: State, events: seq<Event>, key: string)
    ensures Explained(s, events, key)
    decreases |events|
  {
    if events == [] {
      assert QuietFrom(s, events, 0, key);
    } else {
      var front, last := events[..|events| - 1], events[|events| - 1];
      assert events == front + [last];
      SecretsAreAsLastEntered(s, front, key);
      if Enters(s, events, |front|, key) {
        EnterStep(s, front, last, key);
      } else if Deletes(events, |front|, key) {
        DeleteStep(s, front, last, key);
      } else {
        QuietStep(s, front, last, key);
      }
    }
  }

  // ---------- which forms are accepted ----------

  /** A form for one integration that brings its secret is taken unless the
      secret is blank or the AI section is no object. */
  lemma FormWithSecretAccepted(s: State, k: Kind, d: Doc, plain: string)
    ensures Accepted(s, map[Section(k) := d], map[SecretKey(k) := plain])
            <==> TrimSpace(plain) != "" && (k == Ai ==> d.Object?)
  {
    var values, submitted := map[Section(k) := d], map[SecretKey(k) := plain];
    KeysDistinct(k);
    forall j: Kind
      ensures BindingError(j, s, EncodeAll(values), submitted).None?
    {
      if Section(j) in EncodeAll(values) {
        SectionsDistinct(j, k);
      }
    }
    assert SecretsOk(submitted) <==> TrimSpace(plain) != "" by {
      assert SecretKey(k) in submitted;
    }
    assert ValuesOk(values) <==> (k == Ai ==> d.Object?) by {
      assert "ai" in values <==> k == Ai;
    }
  }

  /** Without a secret on record and without one in the form, it is taken unless it
      is no object or would enable OIDC. */
  lemma FormWithoutSecretAccepted(s: State, k: Kind, fields: map<string, Json>)
    requires SecretKey(k) !in s.secrets
    ensures Accepted(s, map[Section(k) := Object(fields)], map[])
            <==> !(k == Oidc && "enabled" in fields && fields["enabled"] == Bool(true))
  {
    OneSectionDecides(s, k, Object(fields));
  }

  /** Which refusal a form for one integration meets when it brings no secret. */
  lemma RefusalsTell(s: State, k: Kind, d: Doc)
    ensures var error := BindingError(k, s, map[Section(k) := d], map[]);
            var enabled := d.Object? && "enabled" in d.fields && d.fields["enabled"] == Bool(true);
            && (error == Some(NotAnObject) <==> d.NotObject?)
            && (error == Some(OidcSecretRequired) <==> k == Oidc && enabled && SecretKey(k) !in s.secrets)
            && (error == Some(ReentryRequired)
                <==> && !d.NotObject? && SecretKey(k) in s.secrets
                     && var saved := SavedDoc(s.settings, Section(k));
                        !(saved.Object? && BindingOf(k, FieldsOf(d)) == BindingOf(k, saved.fields)
                          && Bindable(k, BindingOf(k, saved.fields))))
            && (error.Some? ==> error.value in {NotAnObject, OidcSecretRequired, ReentryRequired})
  {
  }

  /** A secret on its own is taken exactly when it is a known one and not blank. */
  lemma SecretAloneAccepted(s: State, key: string, plain: string)
    ensures Accepted(s, map[], map[key := plain])
            <==> TrimSpace(plain) != ""
                 && key in {"oidc.client_secret", "prometheus.token", "kubernetes.token", "ai.api_key",
                            "webhook.secret", "mail.password"}
  {
    var submitted := map[key := plain];
    assert key in submitted;
    assert EncodeAll(map[]) == map[];
  }

  /** The refusal returned is that of the first integration that has one. */
  lemma {:induction false} FirstErrorIsTheFirst(kinds: seq<Kind>, s: State, values: map<string, Doc>,
                                                submitted: map<string, string>, error: Error)
    ensures FirstError(kinds, s, values, submitted) == Some(error)
            <==> exists i :: 0 <= i < |kinds| && BindingError(kinds[i], s, values, submitted) == Some(error)
                             && forall j :: 0 <= j < i ==> BindingError(kinds[j], s, values, submitted).None?
    decreases |kinds|
  {
    if kinds != [] {
      var rest := kinds[1..];
      FirstErrorIsTheFirst(rest, s, values, submitted, error);
      if i :| 0 <= i < |rest| && BindingError(rest[i], s, values, submitted) == Some(error)
              && (forall j :: 0 <= j < i ==> BindingError(rest[j], s, values, submitted).None?)
              && BindingError(kinds[0], s, values, submitted).None? {
        assert kinds[i + 1] == rest[i] && forall j :: 0 < j < i + 1 ==> kinds[j] == rest[j - 1];
      }
      if i :| 0 < i < |kinds| && BindingError(kinds[i], s, values, submitted) == Some(error)
              && forall j :: 0 <= j < i ==> BindingError(kinds[j], s, values, submitted).None? {
        assert rest[i - 1] == kinds[i] && forall j :: 0 <= j < i - 1 ==> rest[j] == kinds[j + 1];
      }
    }
  }
}
