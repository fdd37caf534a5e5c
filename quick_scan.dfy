/** The URL normalisation of the quick-scan form
    (app/audit/components/quick-scan.tsx): what the user typed becomes the
    URL handed to the scan, and an empty result keeps the form from
    submitting. */
module QuickScan {
  import opened Collections
  import opened Text

  /** `/^https?:\/\//i`: an `http://` or `https://` prefix in any letter
      case. */
  predicate HasScheme(s: string)
  {
    (|s| >= 7 && Lower(s[..7]) == "http://") || (|s| >= 8 && Lower(s[..8]) == "https://")
  }

  /** `formatUrl`: trimmed; empty stays empty; `https://` in front unless
      a scheme is already there. */
  function FormatUrl(value: string): string
  {
    var trimmed := Trim(value);
    if trimmed == [] then []
    else if !HasScheme(trimmed) then "https://" + trimmed
    else trimmed
  }

  /** The three cases of the normalisation. */
  lemma FormatUrlCases(value: string)
    ensures FormatUrl(value) == [] <==> AllSpace(value)
    ensures HasScheme(Trim(value)) ==> FormatUrl(value) == Trim(value)
    ensures !AllSpace(value) && !HasScheme(Trim(value)) ==> FormatUrl(value) == "https://" + Trim(value)
  {
    TrimEmptyIff(value);
  }

  lemma HttpsPrefixHasScheme(t: string)
    ensures HasScheme("https://" + t)
  {
    var s := "https://" + t;
    assert s[..8] == "https://";
    assert Lower("https://") == "https://";
  }

  /** A non-empty result starts with a scheme, has no surrounding
      whitespace, and ends with the trimmed input. */
  lemma FormatUrlShape(value: string)
    ensures var r := FormatUrl(value);
      && (r != [] ==> HasScheme(r) && Trimmed(r))
      && Trim(value) <= r[|r| - |Trim(value)|..]
      && |Trim(value)| <= |r|
  {
    var t := Trim(value);
    if t != [] && !HasScheme(t) {
      var r := "https://" + t;
      HttpsPrefixHasScheme(t);
      assert r[0] == 'h' && r[|r| - 1] == t[|t| - 1];
      assert r[|r| - |t|..] == t;
    }
  }

  /** Normalising a normalised URL changes nothing. */
  lemma FormatUrlIdempotent(value: string)
    ensures FormatUrl(FormatUrl(value)) == FormatUrl(value)
  {
    var r := FormatUrl(value);
    FormatUrlShape(value);
    if r != [] {
      TrimOfTrimmed(r);
    }
  }

  /** A bare domain gains `https://`. */
  lemma BareDomainExample()
    ensures FormatUrl("example.com") == "https://example.com"
  {
    var bare := "example.com";
    assert Trimmed(bare);
    TrimOfTrimmed(bare);
    assert Lower(bare[..7])[0] == 'e' && Lower(bare[..8])[0] == 'e';
  }

  /** A URL with its scheme is kept as typed. */
  lemma FullUrlExample()
    ensures FormatUrl("https://bad.com") == "https://bad.com"
  {
    var url := "https://bad.com";
    assert Trimmed(url);
    TrimOfTrimmed(url);
    HttpsPrefixHasScheme("bad.com");
    assert "https://" + "bad.com" == url;
  }

  /** `handleSubmit`: the URL sent to the scan, or nothing when the
      normalised URL is empty. */
  function SubmitUrl(url: string): Option<string>
  {
    var normalized := FormatUrl(url);
    if normalized == [] then None else Some(normalized)
  }

  /** A scan starts exactly when the input holds a non-space character,
      and it is given a URL with a scheme. */
  lemma SubmitGuard(url: string)
    ensures SubmitUrl(url).None? <==> AllSpace(url)
    ensures SubmitUrl(url).Some? ==> HasScheme(SubmitUrl(url).value) && SubmitUrl(url).value == FormatUrl(url)
  {
    FormatUrlCases(url);
    FormatUrlShape(url);
  }
}
