/**
 * The two `appLink` checks `bootstrap` makes once the updater has finished.
 */
module AppLink {
  import opened Strings
  import opened JsValues
  import opened Outcomes

  const PearScheme := "pear:"
  const LinkRequired := "appLink is required"
  const LinkNotPear := "appLink must be pear:// link"

  /** The link to run, or the input error. Only the `pear:` prefix is
      demanded, not `pear://`. */
  function CheckAppLink(appLink: Value): (r: Result<string>)
    ensures r.Ok? <==> appLink.Str? && StartsWith(appLink.str, PearScheme)
    ensures r.Ok? ==> appLink == Str(r.value)
    ensures !Truthy(appLink) ==> r == Err(InvalidInput(LinkRequired))
    ensures Truthy(appLink) && appLink.Str? && !StartsWith(appLink.str, PearScheme) ==>
      r == Err(InvalidInput(LinkNotPear))
    ensures Truthy(appLink) && !appLink.Str? ==> r == Err(NotAFunction("startsWith"))
  {
    if !Truthy(appLink) then Err(InvalidInput(LinkRequired))
    else if !appLink.Str? then Err(NotAFunction("startsWith"))
    else if StartsWith(appLink.str, PearScheme) then Ok(appLink.str)
    else Err(InvalidInput(LinkNotPear))
  }

  /** `pear:` alone is enough: the check does not look for `//`. */
  lemma PearPrefixSuffices(rest: string)
    ensures CheckAppLink(Str(PearScheme + rest)) == Ok(PearScheme + rest)
  {
    assert PearScheme <= PearScheme + rest;
  }

  /** The link of the scheme test is refused with the second message. */
  lemma HttpLinkRejected()
    ensures CheckAppLink(Str("http://invalid-link")) == Err(InvalidInput(LinkNotPear))
  {
    assert "http://invalid-link"[0] != PearScheme[0];
  }
}
