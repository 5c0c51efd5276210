/** `sendEmailReport`: the plaintext body built from the kept findings records,
    the recipient list joined with commas, and the single send it issues. */
module Report {
  import opened Extensions
  import opened Findings

  /** The script's static configuration. */
  datatype Config = Config(labelName: string, emailRecipients: seq<string>, emailSubject: string)

  /** The arguments of one `MailApp.sendEmail` call. */
  datatype Email = Email(to: string, subject: string, body: string)

  /** The report's first line and the blank line after it. */
  const Title: string := "Disapproved Ad Extensions Report\n\n"

  /** The line of 40 dashes under each account header. */
  const Separator: string := "----------------------------------------\n"

  /** The three lines written for one finding, then a blank line. */
  function FindingEntry(f: Finding): string
  {
    ("Type: " + f.typeLabel + "\n") +
    ("Text: " + f.text + "\n") +
    ("Disapproval Reason: " + f.disapprovalReason + "\n\n")
  }

  /** The entries of a findings list, in list order. */
  function FindingEntries(fs: seq<Finding>): string
  {
    if fs == [] then "" else FindingEntry(fs[0]) + FindingEntries(fs[1..])
  }

  /** The header line naming an account and its customer id. */
  function AccountHeader(r: AccountResult): string
  {
    "Account: " + r.accountName + " (" + r.accountId + ")\n"
  }

  /** One account's block: header, separator, its entries, and a closing newline. */
  function AccountBlock(r: AccountResult): string
  {
    AccountHeader(r) + Separator + FindingEntries(r.disapprovedExtensions) + "\n"
  }

  /** The blocks of the accounts, in result order. */
  function AccountBlocks(rs: seq<AccountResult>): string
  {
    if rs == [] then "" else AccountBlock(rs[0]) + AccountBlocks(rs[1..])
  }

  /** The whole email body: the title, then every account's block. */
  function ReportBody(rs: seq<AccountResult>): string
  {
    Title + AccountBlocks(rs)
  }

  /** The entries of two findings lists back to back are the entries of their
      concatenation. */
  lemma {:induction false} FindingEntriesAppend(a: seq<Finding>, b: seq<Finding>)
    ensures FindingEntries(a + b) == FindingEntries(a) + FindingEntries(b)
  {
    if a == [] {
      assert a + b == b;
    } else {
      assert (a + b)[1..] == a[1..] + b;
      FindingEntriesAppend(a[1..], b);
    }
  }

  /** The blocks of two result lists back to back are the blocks of their
      concatenation. */
  lemma {:induction false} AccountBlocksAppend(a: seq<AccountResult>, b: seq<AccountResult>)
    ensures AccountBlocks(a + b) == AccountBlocks(a) + AccountBlocks(b)
  {
    if a == [] {
      assert a + b == b;
    } else {
      assert (a + b)[1..] == a[1..] + b;
      AccountBlocksAppend(a[1..], b);
    }
  }

  /** The body of two result lists concatenated is the title followed by the
      first list's blocks and then the second's: the body is the title once,
      then one block per account in order. */
  lemma ReportBodyAppend(r1: seq<AccountResult>, r2: seq<AccountResult>)
    ensures ReportBody(r1 + r2) == Title + AccountBlocks(r1) + AccountBlocks(r2)
  {
    AccountBlocksAppend(r1, r2);
  }

  /** `Array.prototype.join`: the parts with `sep` between consecutive ones. */
  function Join(parts: seq<string>, sep: char): string
  {
    if |parts| == 0 then ""
    else if |parts| == 1 then parts[0]
    else parts[0] + [sep] + Join(parts[1..], sep)
  }

  /** `String.prototype.split` on a one-character separator: always at least one
      part, one more than the separators in `s`. */
  function Split(s: string, sep: char): (r: seq<string>)
    ensures |r| >= 1
  {
    if s == [] then [""]
    else
      var rest := Split(s[1..], sep);
      if s[0] == sep then [""] + rest else [[s[0]] + rest[0]] + rest[1..]
  }

  /** A string without the separator splits into itself. */
  lemma {:induction false} SplitWithoutSeparator(x: string, sep: char)
    requires sep !in x
    ensures Split(x, sep) == [x]
  {
    if x != [] {
      SplitWithoutSeparator(x[1..], sep);
      assert [x[0]] + x[1..] == x;
    }
  }

  /** Splitting peels off a separator-free prefix ending at the first separator. */
  lemma {:induction false} SplitAtSeparator(x: string, y: string, sep: char)
    requires sep !in x
    ensures Split(x + [sep] + y, sep) == [x] + Split(y, sep)
  {
    if x == [] {
      assert x + [sep] + y == [sep] + y;
      assert ([sep] + y)[1..] == y;
    } else {
      assert (x + [sep] + y)[1..] == x[1..] + [sep] + y;
      SplitAtSeparator(x[1..], y, sep);
      assert [x[0]] + x[1..] == x;
    }
  }

  /** The recipients field round-trips: joining a non-empty list of addresses
      none of which contains the separator, then splitting, gives the list back. */
  lemma {:induction false} SplitJoin(parts: seq<string>, sep: char)
    requires parts != []
    requires forall k :: 0 <= k < |parts| ==> sep !in parts[k]
    ensures Split(Join(parts, sep), sep) == parts
  {
    if |parts| == 1 {
      SplitWithoutSeparator(parts[0], sep);
    } else {
      SplitJoin(parts[1..], sep);
      SplitAtSeparator(parts[0], Join(parts[1..], sep), sep);
      assert [parts[0]] + parts[1..] == parts;
    }
  }

  /** The values of a list of findings records, in order. */
  function Summaries(rs: seq<AccountFindings>): seq<AccountResult>
    reads rs
  {
    if rs == [] then [] else Summaries(rs[..|rs| - 1]) + [rs[|rs| - 1].Summary()]
  }

  /** Concatenation regrouped; stated once so that the body-building proofs do
      not have to rediscover it over long string terms. */
  lemma ConcatAssoc(a: string, b: string, c: string)
    ensures (a + b) + c == a + (b + c)
  {
  }

  /** One more finding adds its entry at the end. */
  lemma FindingEntriesSnoc(fs: seq<Finding>, f: Finding)
    ensures FindingEntries(fs + [f]) == FindingEntries(fs) + FindingEntry(f)
  {
    FindingEntriesAppend(fs, [f]);
    assert FindingEntries([f]) == FindingEntry(f);
  }

  /** Appending a record appends its value. */
  lemma SummariesAppendOne(rs: seq<AccountFindings>, f: AccountFindings)
    ensures Summaries(rs + [f]) == Summaries(rs) + [f.Summary()]
  {
    assert (rs + [f])[..|rs|] == rs;
  }

  /** Taking one more record takes one more value. */
  lemma SummariesSnoc(rs: seq<AccountFindings>, i: nat)
    requires i < |rs|
    ensures Summaries(rs[..i + 1]) == Summaries(rs[..i]) + [rs[i].Summary()]
  {
    assert rs[..i + 1][..i] == rs[..i];
  }

  /** One more account adds its block at the end. */
  lemma AccountBlocksSnoc(rs: seq<AccountResult>, r: AccountResult)
    ensures AccountBlocks(rs + [r]) == AccountBlocks(rs) + AccountBlock(r)
  {
    AccountBlocksAppend(rs, [r]);
    assert AccountBlocks([r]) == AccountBlock(r);
  }

  /** The callback `sendEmailReport` runs for each kept record: appends the
      account's header line, the separator, three lines and a blank line per
      finding in list order, and a closing newline. */
  method AppendAccountBlock(emailBody: string, accountFindings: AccountFindings) returns (body: string)
    ensures body == emailBody + AccountBlock(accountFindings.Summary())
  {
    body := emailBody + ("Account: " + accountFindings.accountName + " (" + accountFindings.accountId + ")\n");
    body := body + Separator;
    ghost var headed := body;
    var extensions := accountFindings.disapprovedExtensions;
    var j := 0;
    while j < |extensions|
      invariant 0 <= j <= |extensions|
      invariant body == headed + FindingEntries(extensions[..j])
    {
      var extension := extensions[j];
      ghost var prior := body;
      body := body + ("Type: " + extension.typeLabel + "\n");
      body := body + ("Text: " + extension.text + "\n");
      ConcatAssoc(prior, "Type: " + extension.typeLabel + "\n", "Text: " + extension.text + "\n");
      body := body + ("Disapproval Reason: " + extension.disapprovalReason + "\n\n");
      ConcatAssoc(prior, ("Type: " + extension.typeLabel + "\n") + ("Text: " + extension.text + "\n"),
                  "Disapproval Reason: " + extension.disapprovalReason + "\n\n");
      FindingEntriesSnoc(extensions[..j], extension);
      ConcatAssoc(headed, FindingEntries(extensions[..j]), FindingEntry(extension));
      assert extensions[..j + 1] == extensions[..j] + [extension];
      j := j + 1;
    }
    assert extensions[..j] == extensions;
    body := body + "\n";
    ghost var summary := accountFindings.Summary();
    ConcatAssoc(emailBody, AccountHeader(summary), Separator);
    ConcatAssoc(emailBody, AccountHeader(summary) + Separator, FindingEntries(extensions));
    ConcatAssoc(emailBody, AccountHeader(summary) + Separator + FindingEntries(extensions), "\n");
  }

  /** `sendEmailReport`: builds the body from the title and one block per kept
      record, in order, and returns the arguments of its one send: the
      recipients joined with commas, the configured subject and the body. */
  method SendEmailReport(results: seq<AccountFindings>, config: Config) returns (email: Email)
    ensures email.to == Join(config.emailRecipients, ',')
    ensures email.subject == config.emailSubject
    ensures email.body == ReportBody(Summaries(results))
  {
    var emailBody := Title;
    var i := 0;
    while i < |results|
      invariant 0 <= i <= |results|
      invariant emailBody == Title + AccountBlocks(Summaries(results[..i]))
    {
      emailBody := AppendAccountBlock(emailBody, results[i]);
      SummariesSnoc(results, i);
      AccountBlocksSnoc(Summaries(results[..i]), results[i].Summary());
      ConcatAssoc(Title, AccountBlocks(Summaries(results[..i])), AccountBlock(results[i].Summary()));
      i := i + 1;
    }
    assert results[..i] == results;
    email := Email(Join(config.emailRecipients, ','), config.emailSubject, emailBody);
  }
}
