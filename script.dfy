/** `main`: walk the labelled accounts, keep the records of the flagged ones in
    iteration order, and send one report when at least one was kept. */
module Script {
  import opened Extensions
  import opened Findings
  import opened Report

  /** The script's `CONFIG` object. */
  const ScriptConfig: Config :=
    Config("TB_Script", ["your-email@example.com"], "Disapproved Ad Extensions Report")

  /** The record `processAccount` yields for each account, in iteration order. */
  function ProcessAll(accounts: seq<AccountData>): (rs: seq<AccountResult>)
    ensures |rs| == |accounts|
  {
    seq(|accounts|, k requires 0 <= k < |accounts| => Processed(accounts[k]))
  }

  /** The records `main` pushes onto `results`: the flagged ones, in order. */
  function KeepFlagged(rs: seq<AccountResult>): (kept: seq<AccountResult>)
    ensures |kept| <= |rs|
  {
    if rs == [] then []
    else (if rs[0].hasDisapprovedExtensions then [rs[0]] else []) + KeepFlagged(rs[1..])
  }

  /** Filtering distributes over concatenation: what is kept from earlier
      accounts comes before what is kept from later ones, unchanged. */
  lemma {:induction false} KeepFlaggedAppend(a: seq<AccountResult>, b: seq<AccountResult>)
    ensures KeepFlagged(a + b) == KeepFlagged(a) + KeepFlagged(b)
  {
    if a == [] {
      assert a + b == b;
    } else {
      assert (a + b)[0] == a[0];
      assert (a + b)[1..] == a[1..] + b;
      KeepFlaggedAppend(a[1..], b);
    }
  }

  /** One more record is kept at the end exactly when it is flagged. */
  lemma KeepFlaggedSnoc(rs: seq<AccountResult>, r: AccountResult)
    ensures KeepFlagged(rs + [r]) ==
              KeepFlagged(rs) + (if r.hasDisapprovedExtensions then [r] else [])
  {
    KeepFlaggedAppend(rs, [r]);
  }

  /** Processing one more account adds its record at the end. */
  lemma ProcessAllSnoc(accounts: seq<AccountData>, i: nat)
    requires i < |accounts|
    ensures ProcessAll(accounts[..i + 1]) == ProcessAll(accounts[..i]) + [Processed(accounts[i])]
  {
  }

  /** A record is kept exactly when it was produced and is flagged. */
  lemma {:induction false} KeepFlaggedMember(rs: seq<AccountResult>, r: AccountResult)
    ensures r in KeepFlagged(rs) <==> r in rs && r.hasDisapprovedExtensions
  {
    if rs != [] {
      KeepFlaggedMember(rs[1..], r);
      assert rs == [rs[0]] + rs[1..];
    }
  }

  /** A list of flagged records is kept whole. */
  lemma {:induction false} KeepFlaggedAllFlagged(rs: seq<AccountResult>)
    requires forall k :: 0 <= k < |rs| ==> rs[k].hasDisapprovedExtensions
    ensures KeepFlagged(rs) == rs
  {
    if rs != [] {
      KeepFlaggedAllFlagged(rs[1..]);
    }
  }

  /** Filtering twice keeps the same records as filtering once. */
  lemma KeepFlaggedIdempotent(rs: seq<AccountResult>)
    ensures KeepFlagged(KeepFlagged(rs)) == KeepFlagged(rs)
  {
    var kept := KeepFlagged(rs);
    forall k | 0 <= k < |kept|
      ensures kept[k].hasDisapprovedExtensions
    {
      KeepFlaggedMember(rs, kept[k]);
    }
    KeepFlaggedAllFlagged(kept);
  }

  /** Every kept record is flagged and has at least one finding. */
  lemma KeptHaveFindings(accounts: seq<AccountData>, r: AccountResult)
    requires r in KeepFlagged(ProcessAll(accounts))
    ensures r.hasDisapprovedExtensions && r.disapprovedExtensions != []
  {
    var rs := ProcessAll(accounts);
    KeepFlaggedMember(rs, r);
    var k :| 0 <= k < |rs| && rs[k] == r;
  }

  /** Nothing is kept, so no report is sent, exactly when no account has a
      finding. */
  lemma NothingKeptIffNoFindings(accounts: seq<AccountData>)
    ensures KeepFlagged(ProcessAll(accounts)) == [] <==>
              forall k :: 0 <= k < |accounts| ==> AllFindings(accounts[k]) == []
  {
    var rs := ProcessAll(accounts);
    if KeepFlagged(rs) == [] {
      forall k | 0 <= k < |accounts|
        ensures AllFindings(accounts[k]) == []
      {
        KeepFlaggedMember(rs, rs[k]);
      }
    } else {
      var r := KeepFlagged(rs)[0];
      KeepFlaggedMember(rs, r);
      var k :| 0 <= k < |rs| && rs[k] == r;
      assert AllFindings(accounts[k]) != [];
    }
  }

  /** `main` over the account iterator's output: processes every account,
      keeps exactly the flagged records in iteration order, and issues one send
      of the report when, and only when, at least one record was kept. */
  method Run(config: Config, accounts: seq<AccountData>) returns (results: seq<AccountFindings>, outbox: seq<Email>)
    ensures Summaries(results) == KeepFlagged(ProcessAll(accounts))
    ensures results == [] ==> outbox == []
    ensures results != [] ==>
              outbox == [Email(Join(config.emailRecipients, ','), config.emailSubject,
                               ReportBody(Summaries(results)))]
  {
    results := [];
    var i := 0;
    while i < |accounts|
      invariant 0 <= i <= |accounts|
      invariant Summaries(results) == KeepFlagged(ProcessAll(accounts[..i]))
    {
      var account := accounts[i];
      var accountFindings := ProcessAccount(account);
      if accountFindings.hasDisapprovedExtensions {
        SummariesAppendOne(results, accountFindings);
        results := results + [accountFindings];
      }
      ProcessAllSnoc(accounts, i);
      KeepFlaggedSnoc(ProcessAll(accounts[..i]), Processed(account));
      i := i + 1;
    }
    assert accounts[..i] == accounts;
    outbox := [];
    if |results| > 0 {
      var email := SendEmailReport(results, config);
      outbox := outbox + [email];
    }
  }

  /** The header line of account "A" (id 123). */
  lemma ShopNowHeader(result: AccountResult)
    requires result.accountName == "A" && result.accountId == "123"
    ensures AccountHeader(result) == "Account: A (123)\n"
  {
  }

  /** The entry for the disapproved sitelink "Shop Now". */
  lemma ShopNowEntry(finding: Finding)
    requires finding == Finding("Sitelink", "Shop Now", "DISAPPROVED")
    ensures FindingEntry(finding) ==
              "Type: Sitelink\n" + "Text: Shop Now\n" + "Disapproval Reason: DISAPPROVED\n\n"
  {
  }

  /** The body for the result of account "A" (id 123) with the one finding
      for its disapproved sitelink "Shop Now", written out. */
  lemma ShopNowBody(result: AccountResult, finding: Finding)
    requires finding == Finding("Sitelink", "Shop Now", "DISAPPROVED")
    requires result == AccountResult("A", "123", true, [finding])
    ensures ReportBody([result]) ==
              "Disapproved Ad Extensions Report\n\n" +
              "Account: A (123)\n" +
              "----------------------------------------\n" +
              "Type: Sitelink\n" +
              "Text: Shop Now\n" +
              "Disapproval Reason: DISAPPROVED\n\n" +
              "\n"
  {
    var header, typeLine, textLine, reasonLine := "Account: A (123)\n", "Type: Sitelink\n",
      "Text: Shop Now\n", "Disapproval Reason: DISAPPROVED\n\n";
    var entry := typeLine + textLine + reasonLine;
    assert FindingEntries([finding]) == FindingEntry(finding);
    ShopNowEntry(finding);
    ShopNowHeader(result);
    assert AccountBlock(result) == header + Separator + entry + "\n";
    assert AccountBlocks([result]) == AccountBlock(result);
    ConcatAssoc(Title + header + Separator, typeLine, textLine);
    ConcatAssoc(Title + header + Separator, typeLine + textLine, reasonLine);
    ConcatAssoc(Title + header, Separator, entry);
    ConcatAssoc(Title, header, Separator + entry);
    ConcatAssoc(Title, header + Separator, entry);
    ConcatAssoc(Title, header + Separator + entry, "\n");
  }

  /** One account "A" (id 123) with one disapproved sitelink "Shop Now" and
      nothing else: one email to the configured recipient, with the configured
      subject, whose body names the account and the finding. */
  method ScenarioOneDisapprovedSitelink() returns (outbox: seq<Email>)
    ensures |outbox| == 1
    ensures outbox[0].to == "your-email@example.com"
    ensures outbox[0].subject == "Disapproved Ad Extensions Report"
    ensures outbox[0].body ==
              "Disapproved Ad Extensions Report\n\n" +
              "Account: A (123)\n" +
              "----------------------------------------\n" +
              "Type: Sitelink\n" +
              "Text: Shop Now\n" +
              "Disapproval Reason: DISAPPROVED\n\n" +
              "\n"
  {
    var account := AccountData("A", "123", [Extension("Shop Now", "DISAPPROVED")], [], [], [], [], [], []);
    var results;
    results, outbox := Run(ScriptConfig, [account]);
    var finding := Finding("Sitelink", "Shop Now", "DISAPPROVED");
    assert FindingsFor(Sitelink, account.sitelinks) == [finding];
    assert AllFindings(account) == [finding];
    var result := AccountResult("A", "123", true, [finding]);
    assert ProcessAll([account]) == [result];
    assert KeepFlagged([result]) == [result];
    ShopNowBody(result, finding);
  }

  /** Two labelled accounts with no disapproved extension: no email. */
  method ScenarioNoFindings() returns (outbox: seq<Email>)
    ensures outbox == []
  {
    var a := AccountData("A", "123", [], [], [], [], [], [], []);
    var b := AccountData("B", "456", [], [], [], [], [], [], []);
    var results;
    results, outbox := Run(ScriptConfig, [a, b]);
    NothingKeptIffNoFindings([a, b]);
  }
}
