/**
 * The login URL builder: picks the login page, localises it and appends the
 * query arguments the login flow needs.
 *
 * The helpers the builder calls (`config( 'login_url' )`, `addLocaleToPath`,
 * `localizeUrl`, `addQueryArgs`) are left uninterpreted: a URL is the term
 * that records which of them were applied, in which order, to what.
 */
module LoginPath {

  /** A URL as the term of the helper calls that built it. */
  datatype Url =
    | ConfiguredLoginUrl                                 // config( 'login_url' )
    | Path(path: string)                                 // a literal path
    | AddLocaleToPath(base: Url, locale: string)         // addLocaleToPath( url, locale )
    | LocalizeUrl(base: Url, locale: string)             // localizeUrl( url, locale )
    | AddQueryArg(base: Url, key: string, value: string) // addQueryArgs( { key: value }, url )

  /**
   * The options `login` takes. An optional string is `""` when it is absent
   * or empty: the builder only uses such an option when it is truthy.
   */
  datatype LoginOptions = LoginOptions(
    isJetpack: bool,
    isWoo: bool,
    isNative: bool,
    locale: string,
    redirectTo: string,
    twoFactorAuthType: string,
    socialConnect: bool,
    emailAddress: string,
    socialService: string,
    oauth2ClientId: string,
    wccomFrom: string,
    site: string,
    useMagicLink: bool)

  /**
   * `login`. `wpLoginEnabled` is `isEnabled( 'login/wp-login' )`; `isNaN` is
   * JavaScript's global `isNaN`, applied to the client id.
   */
  method Login(o: LoginOptions, wpLoginEnabled: bool, isNaN: string -> bool) returns (url: Url)
    ensures url == LoginUrl(o, wpLoginEnabled, isNaN)
  {
    url := LoginPage(o, wpLoginEnabled);

    ghost var rules := QueryArgRules(o, isNaN);
    ghost var u0 := url;
    url := if o.site != "" then AddQueryArg(url, "site", o.site) else url;
    ghost var u1 := url;
    url := if o.redirectTo != "" then AddQueryArg(url, "redirect_to", o.redirectTo) else url;
    ghost var u2 := url;
    url := if o.emailAddress != "" then AddQueryArg(url, "email_address", o.emailAddress) else url;
    ghost var u3 := url;
    url := if o.oauth2ClientId != "" && !isNaN(o.oauth2ClientId) then AddQueryArg(url, "client_id", o.oauth2ClientId) else url;
    ghost var u4 := url;
    url := if o.isWoo then AddQueryArg(url, "from", "woocommerce-setup-wizard") else url;
    ghost var u5 := url;
    url := if o.wccomFrom != "" then AddQueryArg(url, "wccom-from", o.wccomFrom) else url;
    assert url == AppendIf(AppendIf(AppendIf(AppendIf(AppendIf(AppendIf(
      u0, rules[0]), rules[1]), rules[2]), rules[3]), rules[4]), rules[5]);
    ApplySixRules(u0, rules);
  }

  /**
   * The first half of `login`: the page chosen by the `if` chain, then the
   * locale step.
   */
  method LoginPage(o: LoginOptions, wpLoginEnabled: bool) returns (url: Url)
    ensures url == Localized(BaseUrl(o, wpLoginEnabled), o)
  {
    url := ConfiguredLoginUrl;

    if o.isNative && wpLoginEnabled {
      var path := "/log-in";
      ghost var rules := SuffixRules(o);
      if o.socialService != "" {
        path := path + ("/" + o.socialService + "/callback");
        FirstMatchIsFirstApplicable(rules, "", 0);
      } else if o.twoFactorAuthType != "" && o.isJetpack {
        path := path + ("/jetpack/" + o.twoFactorAuthType);
        FirstMatchIsFirstApplicable(rules, "", 1);
      } else if o.twoFactorAuthType != "" {
        path := path + ("/" + o.twoFactorAuthType);
        FirstMatchIsFirstApplicable(rules, "", 2);
      } else if o.socialConnect {
        path := path + "/social-connect";
        FirstMatchIsFirstApplicable(rules, "", 3);
      } else if o.isJetpack {
        path := path + "/jetpack";
        FirstMatchIsFirstApplicable(rules, "", 4);
      } else if o.useMagicLink {
        path := path + "/link";
        FirstMatchIsFirstApplicable(rules, "", 5);
      } else {
        assert path + "" == path;
      }
      assert path == "/log-in" + FirstMatch(rules, "");
      url := Path(path);
    }
    assert url == BaseUrl(o, wpLoginEnabled);

    if o.locale != "" && o.locale != "en" {
      if o.isNative {
        url := AddLocaleToPath(url, o.locale);
      } else {
        url := LocalizeUrl(url, o.locale);
      }
    }
  }

  // ---------------------------------------------------------------------------
  // The specification: a priority table of path suffixes and a table of query
  // arguments, each entry with the condition that selects it.

  /** A table entry: chosen when `when` holds. */
  datatype Rule<T> = Rule(when: bool, value: T)

  /** The path suffixes of the native login page, highest priority first. */
  function SuffixRules(o: LoginOptions): seq<Rule<string>> {
    [ Rule(o.socialService != "", "/" + o.socialService + "/callback"),
      Rule(o.twoFactorAuthType != "" && o.isJetpack, "/jetpack/" + o.twoFactorAuthType),
      Rule(o.twoFactorAuthType != "", "/" + o.twoFactorAuthType),
      Rule(o.socialConnect, "/social-connect"),
      Rule(o.isJetpack, "/jetpack"),
      Rule(o.useMagicLink, "/link") ]
  }

  /** The value of the first rule that applies, or `default` when none does. */
  function FirstMatch<T>(rules: seq<Rule<T>>, default: T): (v: T)
    ensures (forall i :: 0 <= i < |rules| ==> !rules[i].when) ==> v == default
  {
    if rules == [] then default
    else if rules[0].when then rules[0].value
    else FirstMatch(rules[1..], default)
  }

  /** A rule decides the match when it applies and no earlier rule does. */
  lemma {:induction false} FirstMatchIsFirstApplicable<T>(rules: seq<Rule<T>>, default: T, k: nat)
    requires k < |rules| && rules[k].when
    requires forall i :: 0 <= i < k ==> !rules[i].when
    ensures FirstMatch(rules, default) == rules[k].value
  {
    if k > 0 {
      FirstMatchIsFirstApplicable(rules[1..], default, k - 1);
    }
  }

  /** The page the builder starts from, before localisation. */
  function BaseUrl(o: LoginOptions, wpLoginEnabled: bool): Url {
    if o.isNative && wpLoginEnabled then Path("/log-in" + FirstMatch(SuffixRules(o), ""))
    else ConfiguredLoginUrl
  }

  /** The locale step: none for an absent or English locale. */
  function Localized(u: Url, o: LoginOptions): Url {
    if o.locale == "" || o.locale == "en" then u
    else if o.isNative then AddLocaleToPath(u, o.locale)
    else LocalizeUrl(u, o.locale)
  }

  /** The query arguments the builder may append, in their fixed order. */
  function QueryArgRules(o: LoginOptions, isNaN: string -> bool): seq<Rule<(string, string)>> {
    [ Rule(o.site != "", ("site", o.site)),
      Rule(o.redirectTo != "", ("redirect_to", o.redirectTo)),
      Rule(o.emailAddress != "", ("email_address", o.emailAddress)),
      Rule(o.oauth2ClientId != "" && !isNaN(o.oauth2ClientId), ("client_id", o.oauth2ClientId)),
      Rule(o.isWoo, ("from", "woocommerce-setup-wizard")),
      Rule(o.wccomFrom != "", ("wccom-from", o.wccomFrom)) ]
  }

  /** The values of the rules that apply, in table order. */
  function Selected<T>(rules: seq<Rule<T>>): (vs: seq<T>)
    ensures |vs| <= |rules|
  {
    if rules == [] then [] else Chosen(rules[0]) + Selected(rules[1..])
  }

  /** The value of one rule when it applies. */
  function Chosen<T>(r: Rule<T>): seq<T> {
    if r.when then [r.value] else []
  }

  /** The query arguments of a login URL, in append order. */
  function QueryArgs(o: LoginOptions, isNaN: string -> bool): seq<(string, string)> {
    Selected(QueryArgRules(o, isNaN))
  }

  /** Append the rule's query argument when the rule applies. */
  function AppendIf(u: Url, r: Rule<(string, string)>): Url {
    if r.when then AddQueryArg(u, r.value.0, r.value.1) else u
  }

  /** Apply the rules one after another, first to last. */
  function ApplyRules(u: Url, rules: seq<Rule<(string, string)>>): Url
    decreases |rules|
  {
    if rules == [] then u else ApplyRules(AppendIf(u, rules[0]), rules[1..])
  }

  /** The URL `login` builds: base page, locale step, then the selected query arguments. */
  function LoginUrl(o: LoginOptions, wpLoginEnabled: bool, isNaN: string -> bool): Url {
    ApplyRules(Localized(BaseUrl(o, wpLoginEnabled), o), QueryArgRules(o, isNaN))
  }

  /** The suffix table decides the path exactly as the builder's `if` chain does. */
  lemma SuffixTableLemma(o: LoginOptions)
    ensures FirstMatch(SuffixRules(o), "")
         == if o.socialService != "" then "/" + o.socialService + "/callback"
            else if o.twoFactorAuthType != "" && o.isJetpack then "/jetpack/" + o.twoFactorAuthType
            else if o.twoFactorAuthType != "" then "/" + o.twoFactorAuthType
            else if o.socialConnect then "/social-connect"
            else if o.isJetpack then "/jetpack"
            else if o.useMagicLink then "/link"
            else ""
  {
    var rules := SuffixRules(o);
    if o.socialService != "" {
      FirstMatchIsFirstApplicable(rules, "", 0);
    } else if o.twoFactorAuthType != "" && o.isJetpack {
      FirstMatchIsFirstApplicable(rules, "", 1);
    } else if o.twoFactorAuthType != "" {
      FirstMatchIsFirstApplicable(rules, "", 2);
    } else if o.socialConnect {
      FirstMatchIsFirstApplicable(rules, "", 3);
    } else if o.isJetpack {
      FirstMatchIsFirstApplicable(rules, "", 4);
    } else if o.useMagicLink {
      FirstMatchIsFirstApplicable(rules, "", 5);
    }
  }

  /** Six rules applied in order, spelled out. */
  lemma ApplySixRules(u: Url, rules: seq<Rule<(string, string)>>)
    requires |rules| == 6
    ensures ApplyRules(u, rules)
         == AppendIf(AppendIf(AppendIf(AppendIf(AppendIf(AppendIf(u, rules[0]), rules[1]), rules[2]), rules[3]), rules[4]), rules[5])
  {
    var u1 := AppendIf(u, rules[0]);
    var u2 := AppendIf(u1, rules[1]);
    var u3 := AppendIf(u2, rules[2]);
    var u4 := AppendIf(u3, rules[3]);
    var u5 := AppendIf(u4, rules[4]);
    assert rules[0..] == rules;
    ApplyRulesStep(u, rules, 0);
    ApplyRulesStep(u1, rules, 1);
    ApplyRulesStep(u2, rules, 2);
    ApplyRulesStep(u3, rules, 3);
    ApplyRulesStep(u4, rules, 4);
    ApplyRulesStep(u5, rules, 5);
  }

  lemma ApplyRulesStep(u: Url, rules: seq<Rule<(string, string)>>, k: nat)
    requires k < |rules|
    ensures ApplyRules(u, rules[k..]) == ApplyRules(AppendIf(u, rules[k]), rules[k + 1..])
  {
  }

  // ---------------------------------------------------------------------------
  // Reading a URL back: the page under the query arguments, and the arguments.

  /** The URL with its trailing query-argument appends removed. */
  function Page(u: Url): Url {
    if u.AddQueryArg? then Page(u.base) else u
  }

  /** The query arguments appended to a URL, oldest first. */
  function Args(u: Url): seq<(string, string)> {
    if u.AddQueryArg? then Args(u.base) + [(u.key, u.value)] else []
  }

  lemma {:induction false} ApplyRulesReadBack(u: Url, rules: seq<Rule<(string, string)>>)
    ensures Page(ApplyRules(u, rules)) == Page(u)
    ensures Args(ApplyRules(u, rules)) == Args(u) + Selected(rules)
    decreases |rules|
  {
    if rules != [] {
      ApplyRulesReadBack(AppendIf(u, rules[0]), rules[1..]);
      assert Args(AppendIf(u, rules[0])) == Args(u) + Chosen(rules[0]);
    }
  }

  /**
   * A login URL reads back as its localised base page followed by exactly the
   * selected query arguments, in table order.
   */
  lemma LoginUrlReadBack(o: LoginOptions, wpLoginEnabled: bool, isNaN: string -> bool)
    ensures Page(LoginUrl(o, wpLoginEnabled, isNaN)) == Localized(BaseUrl(o, wpLoginEnabled), o)
    ensures Args(LoginUrl(o, wpLoginEnabled, isNaN)) == QueryArgs(o, isNaN)
  {
    ApplyRulesReadBack(Localized(BaseUrl(o, wpLoginEnabled), o), QueryArgRules(o, isNaN));
  }

  /** A value is selected exactly when some rule that applies carries it. */
  lemma {:induction false} SelectedMembership<T>(rules: seq<Rule<T>>, x: T)
    ensures x in Selected(rules) <==> exists i :: 0 <= i < |rules| && rules[i].when && rules[i].value == x
  {
    if rules != [] {
      SelectedMembership(rules[1..], x);
      if x in Selected(rules[1..]) {
        var i :| 0 <= i < |rules[1..]| && rules[1..][i].when && rules[1..][i].value == x;
        assert rules[i + 1] == rules[1..][i];
      }
      if exists i :: 0 <= i < |rules| && rules[i].when && rules[i].value == x {
        var i :| 0 <= i < |rules| && rules[i].when && rules[i].value == x;
        if i > 0 {
          assert rules[1..][i - 1] == rules[i];
        }
      }
    }
  }

  /** Rules whose values have pairwise distinct keys select values with distinct keys. */
  lemma {:induction false} SelectedKeysDistinct<K, V>(rules: seq<Rule<(K, V)>>)
    requires forall i, j :: 0 <= i < j < |rules| ==> rules[i].value.0 != rules[j].value.0
    ensures forall i, j :: 0 <= i < j < |Selected(rules)| ==> Selected(rules)[i].0 != Selected(rules)[j].0
  {
    if rules != [] {
      var rest := rules[1..];
      SelectedKeysDistinct(rest);
      var vs := Selected(rules);
      var tail := Selected(rest);
      assert vs == Chosen(rules[0]) + tail;
      forall i, j | 0 <= i < j < |vs| ensures vs[i].0 != vs[j].0 {
        if rules[0].when && i == 0 {
          assert vs[j] == tail[j - 1];
          SelectedMembership(rest, tail[j - 1]);
          var k :| 0 <= k < |rest| && rest[k].when && rest[k].value == tail[j - 1];
          assert rules[k + 1] == rest[k];
          assert vs[0] == rules[0].value && vs[j] == rules[k + 1].value;
        } else if rules[0].when {
          assert vs[i] == tail[i - 1] && vs[j] == tail[j - 1];
        } else {
          assert vs == tail;
        }
      }
    }
  }

  /** With distinct keys, a rule's value is selected exactly when the rule applies. */
  lemma SelectedAt<K, V>(rules: seq<Rule<(K, V)>>, k: nat)
    requires forall i, j :: 0 <= i < j < |rules| ==> rules[i].value.0 != rules[j].value.0
    requires k < |rules|
    ensures rules[k].value in Selected(rules) <==> rules[k].when
  {
    SelectedMembership(rules, rules[k].value);
    if rules[k].value in Selected(rules) {
      var i :| 0 <= i < |rules| && rules[i].when && rules[i].value == rules[k].value;
      assert i == k;
    }
  }

  /** The keys of the query-argument table are pairwise distinct. */
  lemma QueryArgKeysDistinct(o: LoginOptions, isNaN: string -> bool)
    ensures var rules := QueryArgRules(o, isNaN);
      |rules| == 6 && forall i, j :: 0 <= i < j < |rules| ==> rules[i].value.0 != rules[j].value.0
  {
  }

  /**
   * Which query arguments a login URL carries: `site`, `redirect_to`,
   * `email_address` and `wccom-from` exactly when given, `client_id` exactly
   * when given and numeric, `from=woocommerce-setup-wizard` exactly for
   * WooCommerce; no key twice, and every key with the option's own value.
   */
  lemma QueryArgPresence(o: LoginOptions, isNaN: string -> bool)
    ensures var args := QueryArgs(o, isNaN);
      (("site", o.site) in args <==> o.site != "")
      && (("redirect_to", o.redirectTo) in args <==> o.redirectTo != "")
      && (("email_address", o.emailAddress) in args <==> o.emailAddress != "")
      && (("client_id", o.oauth2ClientId) in args <==> o.oauth2ClientId != "" && !isNaN(o.oauth2ClientId))
      && (("from", "woocommerce-setup-wizard") in args <==> o.isWoo)
      && (("wccom-from", o.wccomFrom) in args <==> o.wccomFrom != "")
    ensures var args := QueryArgs(o, isNaN);
      forall i, j :: 0 <= i < j < |args| ==> args[i].0 != args[j].0
  {
    var rules := QueryArgRules(o, isNaN);
    QueryArgKeysDistinct(o, isNaN);
    SelectedKeysDistinct(rules);
    SelectedAt(rules, 0);
    SelectedAt(rules, 1);
    SelectedAt(rules, 2);
    SelectedAt(rules, 3);
    SelectedAt(rules, 4);
    SelectedAt(rules, 5);
  }
}
