/** The values the script works with: the seven extension kinds, the records the
    platform iterators yield, the finding the script records for each of them, and
    the per-account data and result. */
module Extensions {

  /** The seven extension categories, in the order `processAccount` checks them. */
  datatype ExtensionKind = Sitelink | Call | Callout | Location | Price | Image | Promotion

  /** The literal type label each checker writes into its findings. */
  function Label(kind: ExtensionKind): string
  {
    match kind
    case Sitelink => "Sitelink"
    case Call => "Call"
    case Callout => "Callout"
    case Location => "Location"
    case Price => "Price"
    case Image => "Image"
    case Promotion => "Promotion"
  }

  /** One extension as an iterator yields it: the kind-specific display text
      (link text, phone number, callout text, address, header text, image name or
      promotion text) and the platform's approval status. */
  datatype Extension = Extension(text: string, approvalStatus: string)

  /** One finding record pushed onto `disapprovedExtensions`. */
  datatype Finding = Finding(typeLabel: string, text: string, disapprovalReason: string)

  /** The record a checker of the given kind pushes for one extension. */
  function FindingOf(kind: ExtensionKind, e: Extension): Finding
  {
    Finding(Label(kind), e.text, e.approvalStatus)
  }

  /** What a checker of the given kind appends for the extensions its iterator
      yields: one finding per extension, in iteration order. */
  function FindingsFor(kind: ExtensionKind, extensions: seq<Extension>): (r: seq<Finding>)
    ensures |r| == |extensions|
  {
    if extensions == [] then []
    else [FindingOf(kind, extensions[0])] + FindingsFor(kind, extensions[1..])
  }

  /** The i-th finding a checker appends is about the i-th extension its iterator
      yielded: it carries the checker's type label, the extension's text, and the
      extension's approval status verbatim as the disapproval reason. */
  lemma {:induction false} FindingsForAt(kind: ExtensionKind, extensions: seq<Extension>, i: nat)
    requires i < |extensions|
    ensures FindingsFor(kind, extensions)[i] == FindingOf(kind, extensions[i])
    ensures FindingsFor(kind, extensions)[i].typeLabel == Label(kind)
    ensures FindingsFor(kind, extensions)[i].text == extensions[i].text
    ensures FindingsFor(kind, extensions)[i].disapprovalReason == extensions[i].approvalStatus
  {
    if i > 0 {
      FindingsForAt(kind, extensions[1..], i - 1);
    }
  }

  /** Appending one more extension to the iterator's output appends exactly its
      finding and leaves the earlier findings as they were. */
  lemma {:induction false} FindingsForSnoc(kind: ExtensionKind, extensions: seq<Extension>, e: Extension)
    ensures FindingsFor(kind, extensions + [e]) == FindingsFor(kind, extensions) + [FindingOf(kind, e)]
  {
    if extensions != [] {
      assert (extensions + [e])[1..] == extensions[1..] + [e];
      FindingsForSnoc(kind, extensions[1..], e);
    }
  }

  /** One managed account as the script sees it after selecting it: its name,
      its customer id, and the (already filtered) output of the seven extension
      iterators. */
  datatype AccountData = AccountData(
    name: string,
    customerId: string,
    sitelinks: seq<Extension>,
    calls: seq<Extension>,
    callouts: seq<Extension>,
    locations: seq<Extension>,
    prices: seq<Extension>,
    images: seq<Extension>,
    promotions: seq<Extension>)

  /** The iterator output a checker of the given kind walks for an account. */
  function ExtensionsOf(a: AccountData, kind: ExtensionKind): seq<Extension>
  {
    match kind
    case Sitelink => a.sitelinks
    case Call => a.calls
    case Callout => a.callouts
    case Location => a.locations
    case Price => a.prices
    case Image => a.images
    case Promotion => a.promotions
  }

  /** The findings of one account: the seven checkers' outputs concatenated in
      invocation order. */
  function AllFindings(a: AccountData): seq<Finding>
  {
    FindingsFor(Sitelink, a.sitelinks) + FindingsFor(Call, a.calls) +
    FindingsFor(Callout, a.callouts) + FindingsFor(Location, a.locations) +
    FindingsFor(Price, a.prices) + FindingsFor(Image, a.images) +
    FindingsFor(Promotion, a.promotions)
  }

  /** The value of a findings record: name, id, flag and the findings list. */
  datatype AccountResult = AccountResult(
    accountName: string,
    accountId: string,
    hasDisapprovedExtensions: bool,
    disapprovedExtensions: seq<Finding>)

  /** The record `processAccount` returns for an account. */
  function Processed(a: AccountData): AccountResult
  {
    AccountResult(a.name, a.customerId, AllFindings(a) != [], AllFindings(a))
  }

  /** An account is flagged exactly when one of its seven iterators yields an
      extension, and then its findings number the extensions yielded. */
  lemma ProcessedFlag(a: AccountData)
    ensures Processed(a).hasDisapprovedExtensions <==>
              exists kind :: ExtensionsOf(a, kind) != []
    ensures |Processed(a).disapprovedExtensions| ==
              |a.sitelinks| + |a.calls| + |a.callouts| + |a.locations| +
              |a.prices| + |a.images| + |a.promotions|
  {
    var total := |a.sitelinks| + |a.calls| + |a.callouts| + |a.locations| +
                 |a.prices| + |a.images| + |a.promotions|;
    assert |AllFindings(a)| == total;
    if exists kind :: ExtensionsOf(a, kind) != [] {
      var kind :| ExtensionsOf(a, kind) != [];
      assert |ExtensionsOf(a, kind)| <= total;
    }
    if a.sitelinks != [] { assert ExtensionsOf(a, Sitelink) != []; }
    else if a.calls != [] { assert ExtensionsOf(a, Call) != []; }
    else if a.callouts != [] { assert ExtensionsOf(a, Callout) != []; }
    else if a.locations != [] { assert ExtensionsOf(a, Location) != []; }
    else if a.prices != [] { assert ExtensionsOf(a, Price) != []; }
    else if a.images != [] { assert ExtensionsOf(a, Image) != []; }
    else if a.promotions != [] { assert ExtensionsOf(a, Promotion) != []; }
  }
}
