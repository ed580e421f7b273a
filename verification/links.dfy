/** The link target written for a record's website:
    `"http://" + website.replace(/^https?:\/\//, '')`. */
module Links {
  import opened Text

  const Http := "http://"
  const Https := "https://"

  /** The case-sensitive, start-anchored pattern `^https?://`. */
  predicate HasScheme(w: string)
  {
    StartsWith(w, Http) || StartsWith(w, Https)
  }

  /** At most one of the two prefixes can match: they differ at index 4. */
  lemma SchemesExclusive(w: string)
    ensures !(StartsWith(w, Http) && StartsWith(w, Https))
  {
    if StartsWith(w, Http) {
      assert w[4] == w[..|Http|][4] == ':';
      assert Https[4] == 's';
    }
  }

  /** Removes one leading `http://` or `https://`, if present. */
  function StripScheme(w: string): (r: string)
    ensures StartsWith(w, Http) ==> w == Http + r
    ensures StartsWith(w, Https) ==> w == Https + r
    ensures !HasScheme(w) ==> r == w
  {
    SchemesExclusive(w);
    if StartsWith(w, Http) then w[|Http|..]
    else if StartsWith(w, Https) then w[|Https|..]
    else w
  }

  /** The href written into the website cell. */
  function Href(w: string): (h: string)
    ensures StartsWith(h, Http)
    ensures h[|Http|..] == StripScheme(w)
  {
    Http + StripScheme(w)
  }

  /** A bare host and the same host behind either scheme give one href. */
  lemma HrefConverges(host: string)
    ensures Href(Http + host) == Http + host
    ensures Href(Https + host) == Http + host
    ensures !HasScheme(host) ==> Href(host) == Http + host
  {
    assert (Http + host)[..|Http|] == Http;
    assert (Http + host)[|Http|..] == host;
    SchemesExclusive(Https + host);
    assert (Https + host)[..|Https|] == Https;
    assert (Https + host)[|Https|..] == host;
  }

  /** Rewriting an href that was already produced leaves it unchanged. */
  lemma HrefIdempotent(w: string)
    ensures Href(Href(w)) == Href(w)
  {
    HrefConverges(StripScheme(w));
  }

  /** Two websites share an href exactly when they agree once the scheme is
      stripped. */
  lemma HrefEqualIff(v: string, w: string)
    ensures Href(v) == Href(w) <==> StripScheme(v) == StripScheme(w)
  {
    if Href(v) == Href(w) {
      assert StripScheme(v) == Href(v)[|Http|..];
      assert StripScheme(w) == Href(w)[|Http|..];
    }
  }

  /** The href keeps the host as is exactly when the host carries no scheme. */
  lemma HrefKeepsHostIff(host: string)
    ensures Href(host) == Http + host <==> !HasScheme(host)
  {
    if StartsWith(host, Http) || StartsWith(host, Https) {
      assert |Href(host)| < |Http + host|;
    }
  }

  const ExampleHost := "example.com"

  /** `example.com` and `https://example.com` both link to `http://example.com`. */
  lemma ExampleDotCom()
    ensures Href(ExampleHost) == Http + ExampleHost
    ensures Href(Https + ExampleHost) == Http + ExampleHost
  {
    assert !HasScheme(ExampleHost) by {
      assert ExampleHost[0] == 'e';
      assert !StartsWith(ExampleHost, Http) by { assert ExampleHost[0] != Http[0]; }
      assert !StartsWith(ExampleHost, Https) by { assert ExampleHost[0] != Https[0]; }
    }
    HrefConverges(ExampleHost);
  }

  /** Only one prefix is removed: a doubled scheme keeps its inner copy. */
  lemma StripsOnlyOnce(host: string)
    ensures Href(Http + (Https + host)) == Http + (Https + host)
    ensures Href(Https + (Http + host)) == Http + (Http + host)
  {
    HrefConverges(Https + host);
    HrefConverges(Http + host);
  }

  const UpperHttps := "HTTPS://"

  /** Upper-case schemes are not recognised and end up behind `http://`. */
  lemma CaseSensitive(host: string)
    ensures Href(UpperHttps + host) == Http + (UpperHttps + host)
  {
    var w := UpperHttps + host;
    assert w[0] == 'H';
    assert !HasScheme(w) by {
      assert !StartsWith(w, Http) by { assert w[0] != Http[0]; }
      assert !StartsWith(w, Https) by { assert w[0] != Https[0]; }
    }
    HrefConverges(w);
  }
}
