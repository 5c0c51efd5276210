/** The per-account findings record and the code that fills it: one checker
    parametrised by the extension kind (standing for the seven `check*Extensions`
    functions) and `processAccount`, which runs them in a fixed order. */
module Findings {
  import opened Extensions

  /** The mutable `findings` object threaded through the checkers. */
  class AccountFindings {
    var accountName: string
    var accountId: string
    var hasDisapprovedExtensions: bool
    var disapprovedExtensions: seq<Finding>

    /** The flag is set exactly when the list holds a finding. */
    ghost predicate Valid()
      reads this
    {
      hasDisapprovedExtensions <==> disapprovedExtensions != []
    }

    /** The record's current value. */
    function Summary(): AccountResult
      reads this
    {
      AccountResult(accountName, accountId, hasDisapprovedExtensions, disapprovedExtensions)
    }

    /** The object literal `processAccount` starts from: the flag cleared and
        the list empty. */
    constructor (name: string, id: string)
      ensures Valid()
      ensures accountName == name && accountId == id
      ensures !hasDisapprovedExtensions && disapprovedExtensions == []
    {
      accountName := name;
      accountId := id;
      hasDisapprovedExtensions := false;
      disapprovedExtensions := [];
    }
  }

  /** One `check*Extensions` function: for every extension the iterator yields,
      set the flag and push one finding labelled with `kind`. Findings already in
      the list stay as they were, and the record's flag invariant is kept. */
  method CheckExtensions(findings: AccountFindings, kind: ExtensionKind, extensions: seq<Extension>)
    modifies findings
    ensures findings.accountName == old(findings.accountName)
    ensures findings.accountId == old(findings.accountId)
    ensures findings.disapprovedExtensions ==
              old(findings.disapprovedExtensions) + FindingsFor(kind, extensions)
    ensures findings.hasDisapprovedExtensions ==
              (old(findings.hasDisapprovedExtensions) || extensions != [])
    ensures old(findings.Valid()) ==> findings.Valid()
  {
    var i := 0;
    while i < |extensions|
      invariant 0 <= i <= |extensions|
      invariant findings.accountName == old(findings.accountName)
      invariant findings.accountId == old(findings.accountId)
      invariant findings.disapprovedExtensions ==
                  old(findings.disapprovedExtensions) + FindingsFor(kind, extensions[..i])
      invariant findings.hasDisapprovedExtensions ==
                  (old(findings.hasDisapprovedExtensions) || i > 0)
    {
      var extension := extensions[i];
      findings.hasDisapprovedExtensions := true;
      findings.disapprovedExtensions := findings.disapprovedExtensions +
        [Finding(Label(kind), extension.text, extension.approvalStatus)];
      FindingsForSnoc(kind, extensions[..i], extension);
      assert extensions[..i + 1] == extensions[..i] + [extension];
      i := i + 1;
    }
    assert extensions[..i] == extensions;
  }

  /** `processAccount`: a fresh record for the account, filled by the seven
      checkers in the order Sitelink, Call, Callout, Location, Price, Image,
      Promotion. */
  method ProcessAccount(account: AccountData) returns (findings: AccountFindings)
    ensures fresh(findings)
    ensures findings.Valid()
    ensures findings.Summary() == Processed(account)
  {
    findings := new AccountFindings(account.name, account.customerId);
    CheckExtensions(findings, Sitelink, account.sitelinks);
    ghost var soFar := FindingsFor(Sitelink, account.sitelinks);
    assert findings.disapprovedExtensions == soFar;
    CheckExtensions(findings, Call, account.calls);
    soFar := soFar + FindingsFor(Call, account.calls);
    assert findings.disapprovedExtensions == soFar;
    CheckExtensions(findings, Callout, account.callouts);
    soFar := soFar + FindingsFor(Callout, account.callouts);
    assert findings.disapprovedExtensions == soFar;
    CheckExtensions(findings, Location, account.locations);
    soFar := soFar + FindingsFor(Location, account.locations);
    assert findings.disapprovedExtensions == soFar;
    CheckExtensions(findings, Price, account.prices);
    soFar := soFar + FindingsFor(Price, account.prices);
    assert findings.disapprovedExtensions == soFar;
    CheckExtensions(findings, Image, account.images);
    soFar := soFar + FindingsFor(Image, account.images);
    assert findings.disapprovedExtensions == soFar;
    CheckExtensions(findings, Promotion, account.promotions);
    soFar := soFar + FindingsFor(Promotion, account.promotions);
    assert findings.disapprovedExtensions == soFar == AllFindings(account);
  }
}
