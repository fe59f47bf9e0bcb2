/** The locale middleware of middleware.ts: a request whose pathname already names a locale
    passes through; any other is redirected to the same pathname under the negotiated locale.
    The negotiation (Negotiator and the locale matcher over the Accept-Language header) is an
    input: `locale` is whatever the matcher returned. */
module LocaleRouting {
  import opened Common

  const Locales: seq<string> := ["en", "zh"]
  const DefaultLocale := "zh"

  datatype Response = Next | Redirect(pathname: string)

  /** `pathnameHasLocale`: some locale `l` with the pathname starting "/l/" or equal to "/l". */
  predicate HasLocale(pathname: string)
  {
    exists i :: 0 <= i < |Locales| && NamesLocale(pathname, Locales[i])
  }

  predicate NamesLocale(pathname: string, locale: string)
  {
    StartsWith(pathname, "/" + locale + "/") || pathname == "/" + locale
  }

  /** `middleware(request)` on the request's pathname. */
  function Middleware(pathname: string, locale: string): (r: Response)
    ensures r == Next <==> HasLocale(pathname)
    ensures r.Redirect? ==> r.pathname == "/" + locale + pathname
  {
    if HasLocale(pathname) then Next else Redirect("/" + locale + pathname)
  }

  /** The predicate over the two configured locales, written out. */
  lemma HasLocaleCases(pathname: string)
    ensures HasLocale(pathname) <==>
      StartsWith(pathname, "/en/") || StartsWith(pathname, "/zh/") || pathname == "/en" || pathname == "/zh"
  {
    if StartsWith(pathname, "/en/") || pathname == "/en" {
      assert NamesLocale(pathname, Locales[0]);
    }
    if StartsWith(pathname, "/zh/") || pathname == "/zh" {
      assert NamesLocale(pathname, Locales[1]);
    }
  }

  /** "/english" and "/zhx" only share a prefix with a locale: both are redirected. */
  lemma LookalikesRedirect(locale: string)
    ensures Middleware("/english", locale) == Redirect("/" + locale + "/english")
    ensures Middleware("/zhx", locale) == Redirect("/" + locale + "/zhx")
  {
    HasLocaleCases("/english");
    HasLocaleCases("/zhx");
    assert "/english"[..4] == "/eng";
    assert "/zhx"[..4] == "/zhx";
  }

  /** Prefixing a configured locale gives a pathname with a locale exactly when the original
      pathname is empty or starts with "/". */
  lemma PrefixedHasLocale(locale: string, pathname: string)
    requires locale in Locales
    ensures HasLocale("/" + locale + pathname) <==> pathname == "" || pathname[0] == '/'
  {
    var t := "/" + locale + pathname;
    HasLocaleCases(t);
    if pathname == "" {
      assert t == "/" + locale;
    } else if pathname[0] == '/' {
      assert t[..4] == "/" + locale + "/";
    } else {
      assert t[3] == pathname[0];
      assert t != "/en" && t != "/zh";
    }
  }

  /** A redirect built from a pathname starting with "/" leads to a pathname the middleware
      lets through: a second pass never redirects. */
  lemma SecondPassPasses(pathname: string, locale: string, locale2: string)
    requires locale in Locales
    requires pathname == "" || pathname[0] == '/'
    requires Middleware(pathname, locale).Redirect?
    ensures Middleware(Middleware(pathname, locale).pathname, locale2) == Next
  {
    PrefixedHasLocale(locale, pathname);
  }
}
