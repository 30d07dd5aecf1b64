/**
 * The two Discord recognisers of src/methods/bots.ts, written as the prefix
 * tests and character-class checks a backtracking regex engine performs for
 *   invite:  ^https?://discord(app)?\.com(/api)?/oauth2/authorize   (nothing required after)
 *   server:  ^(?:https?://discord\.gg/)?([A-Za-z0-9-.]+)$
 * Each optional part is tried in its longer form first; the lemmas below show
 * that the alternatives exclude each other, so no match is missed.
 */
module DiscordPatterns {
  import opened Wrappers

  /** The rest of `s` after the literal prefix `p`. */
  function After(s: string, p: string): (rest: string)
    requires p <= s
    ensures s == p + rest
  {
    s[|p|..]
  }

  /** `https?://`: what follows the scheme, if `s` starts with one. */
  function SchemeRest(s: string): Option<string> {
    if "https://" <= s then Some(After(s, "https://"))
    else if "http://" <= s then Some(After(s, "http://"))
    else None
  }

  /** `discord(app)?\.com`: what follows the host, if `s` starts with it. */
  function HostRest(s: string): Option<string> {
    if "discordapp.com" <= s then Some(After(s, "discordapp.com"))
    else if "discord.com" <= s then Some(After(s, "discord.com"))
    else None
  }

  /** `(/api)?`: always matches, consuming `/api` when it is there. */
  function ApiRest(s: string): string {
    if "/api" <= s then After(s, "/api") else s
  }

  const AuthorizePath := "/oauth2/authorize"

  /** The invite-URL regex; only the start of the string is constrained. */
  predicate InviteURLPattern(s: string) {
    match SchemeRest(s)
    case None => false
    case Some(afterScheme) =>
      match HostRest(afterScheme)
      case None => false
      case Some(afterHost) => AuthorizePath <= ApiRest(afterHost)
  }

  /** One of the eight literal prefixes the invite regex stands for. */
  function InvitePrefix(secure: bool, app: bool, api: bool): string {
    Scheme(secure) + Host(app) + Api(api) + AuthorizePath
  }

  function Scheme(secure: bool): string {
    if secure then "https://" else "http://"
  }

  function Host(app: bool): string {
    if app then "discordapp.com" else "discord.com"
  }

  function Api(api: bool): string {
    if api then "/api" else ""
  }

  /** A character of the class `[A-Za-z0-9-.]`. */
  predicate IsCodeChar(c: char) {
    'A' <= c <= 'Z' || 'a' <= c <= 'z' || '0' <= c <= '9' || c == '-' || c == '.'
  }

  /** `[A-Za-z0-9-.]+$`: a non-empty run of code characters up to the end. */
  predicate IsCode(s: string) {
    |s| > 0 && forall i | 0 <= i < |s| :: IsCodeChar(s[i])
  }

  const InviteLinkHost := "discord.gg/"

  /**
   * The support-server regex: the optional `https?://discord.gg/` group is
   * tried first; when the code after it does not run to the end, the engine
   * falls back to matching the whole string as a bare code.
   */
  predicate SupportServerPattern(s: string) {
    || (match SchemeRest(s)
        case None => false
        case Some(afterScheme) => InviteLinkHost <= afterScheme && IsCode(After(afterScheme, InviteLinkHost)))
    || IsCode(s)
  }

  /** Two literals that differ at some position cannot both start the same string. */
  lemma Exclusive(s: string, p: string, q: string, i: nat)
    requires i < |p| && i < |q| && p[i] != q[i]
    ensures !(p <= s && q <= s)
  {
    if p <= s {
      assert s[i] == p[i];
    }
  }

  /** `p + q` starts `s` exactly when `p` does and `q` starts what follows it. */
  lemma PrefixOf(s: string, p: string, q: string)
    ensures p + q <= s <==> p <= s && q <= After(s, p)
  {
    if p + q <= s {
      assert s[..|p|] == (p + q)[..|p|] == p;
      assert After(s, p)[..|q|] == s[|p|..|p| + |q|] == q;
    }
    if p <= s && q <= After(s, p) {
      assert s[..|p| + |q|] == s[..|p|] + s[|p|..|p| + |q|];
    }
  }

  /** A four-part prefix, peeled one part at a time. */
  lemma PrefixOf4(s: string, a: string, b: string, c: string, d: string)
    ensures a + b + c + d <= s <==>
      && a <= s
      && b <= After(s, a)
      && c <= After(After(s, a), b)
      && d <= After(After(After(s, a), b), c)
  {
    assert a + b + c + d == a + (b + (c + d));
    PrefixOf(s, a, b + (c + d));
    if a <= s {
      PrefixOf(After(s, a), b, c + d);
      if b <= After(s, a) {
        PrefixOf(After(After(s, a), b), c, d);
      }
    }
  }

  /** Whatever the recogniser accepts starts with one of the eight prefixes. */
  lemma AcceptedInviteHasPrefix(s: string)
    requires InviteURLPattern(s)
    ensures exists secure, app, api :: InvitePrefix(secure, app, api) <= s
  {
    var secure := "https://" <= s;
    var s1 := After(s, Scheme(secure));
    var app := "discordapp.com" <= s1;
    var s2 := After(s1, Host(app));
    var api := "/api" <= s2;
    assert After(s2, "") == s2;
    PrefixOf4(s, Scheme(secure), Host(app), Api(api), AuthorizePath);
    assert InvitePrefix(secure, app, api) <= s;
  }

  lemma SchemeRestOf(s: string, secure: bool)
    requires Scheme(secure) <= s
    ensures SchemeRest(s) == Some(After(s, Scheme(secure)))
  {
    Exclusive(s, "https://", "http://", 4);
  }

  lemma HostRestOf(s: string, app: bool)
    requires Host(app) <= s
    ensures HostRest(s) == Some(After(s, Host(app)))
  {
    Exclusive(s, "discordapp.com", "discord.com", 7);
  }

  lemma ApiRestOf(s: string, api: bool)
    requires Api(api) + AuthorizePath <= s
    ensures AuthorizePath <= ApiRest(s)
  {
    PrefixOf(s, Api(api), AuthorizePath);
    if !api {
      assert After(s, "") == s;
      Exclusive(s, "/api", AuthorizePath, 1);
    }
  }

  /** Every string starting with one of the eight prefixes is accepted. */
  lemma PrefixedInviteAccepted(s: string, secure: bool, app: bool, api: bool)
    requires InvitePrefix(secure, app, api) <= s
    ensures InviteURLPattern(s)
  {
    PrefixOf4(s, Scheme(secure), Host(app), Api(api), AuthorizePath);
    var s1 := After(s, Scheme(secure));
    SchemeRestOf(s, secure);
    var s2 := After(s1, Host(app));
    HostRestOf(s1, app);
    PrefixOf(s2, Api(api), AuthorizePath);
    ApiRestOf(s2, api);
  }

  /** The invite recogniser accepts exactly the strings starting with one of the eight prefixes. */
  lemma InviteURLPatternIff(s: string)
    ensures InviteURLPattern(s) <==> exists secure, app, api :: InvitePrefix(secure, app, api) <= s
  {
    if InviteURLPattern(s) {
      AcceptedInviteHasPrefix(s);
    }
    if exists secure, app, api :: InvitePrefix(secure, app, api) <= s {
      var secure, app, api :| InvitePrefix(secure, app, api) <= s;
      PrefixedInviteAccepted(s, secure, app, api);
    }
  }

  /** A bare code, and a code behind either link form, are all accepted. */
  lemma SupportServerAcceptsCodes(code: string)
    requires IsCode(code)
    ensures SupportServerPattern(code)
    ensures SupportServerPattern("https://" + InviteLinkHost + code)
    ensures SupportServerPattern("http://" + InviteLinkHost + code)
  {
    forall a | a == "https://" || a == "http://"
      ensures SupportServerPattern(a + InviteLinkHost + code)
    {
      var s := a + InviteLinkHost + code;
      assert s == a + (InviteLinkHost + code);
      PrefixOf(s, a, InviteLinkHost + code);
      Exclusive(s, "https://", "http://", 4);
      assert SchemeRest(s) == Some(InviteLinkHost + code);
      PrefixOf(InviteLinkHost + code, InviteLinkHost, code);
    }
  }

  /**
   * Anything accepted is either a bare code or a link whose part after
   * `discord.gg/` is a code: no other character can get through.
   */
  lemma SupportServerOnlyCodes(s: string)
    requires SupportServerPattern(s)
    ensures || IsCode(s)
            || (exists a | a == "https://" || a == "http://" ::
                  && a + InviteLinkHost <= s
                  && IsCode(s[|a + InviteLinkHost|..]))
  {
    if !IsCode(s) {
      var a := if "https://" <= s then "https://" else "http://";
      var rest := After(s, a);
      assert InviteLinkHost <= rest && IsCode(After(rest, InviteLinkHost));
      PrefixOf(s, a, InviteLinkHost);
      assert s[|a + InviteLinkHost|..] == After(rest, InviteLinkHost);
    }
  }
}
