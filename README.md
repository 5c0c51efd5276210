# Disapproved ad extensions checker — a Dafny model

The script audits the advertising accounts managed under a manager account that
carry the label `TB_Script`. For each such account it runs seven checkers, one
per extension kind: Sitelink, Call, Callout, Location, Price, Image and
Promotion. Each checker walks the platform's iterator of enabled, not-approved
extensions of its kind. For every extension it sets the account's
`hasDisapprovedExtensions` flag and pushes one finding: the type label, the
extension's display text, and its approval status as the disapproval reason.
`main` keeps the flagged accounts' records in iteration order. When at least one
was kept, it sends one plaintext email report to the configured recipients.

The model has four modules:

- `Extensions` (extensions.dfy) holds the values: the extension kinds and their
  labels, the extension record `(text, approvalStatus)` an iterator yields, the
  finding record, and the per-account input (name, customer id and the seven
  iterators' outputs as sequences). It also holds the functions that say what a
  checker appends (`FindingsFor`) and what `processAccount` produces
  (`AllFindings`, `Processed`).
- `Findings` (findings.dfy) holds the mutable findings record as a class
  `AccountFindings`. `CheckExtensions` is the one checker, parametrised by the
  kind and the iterator's output; it stands for the seven `check*Extensions`
  functions. `ProcessAccount` creates a fresh record and runs the checker seven
  times in the script's order.
- `Report` (report.dfy) holds the email body as functions (`ReportBody` and the
  block functions under it) and the recipient join (`Join`). `SendEmailReport`
  and its per-account callback `AppendAccountBlock` build the body by appending
  with loops, as the script does. `SendEmailReport` returns the arguments of its
  single `MailApp.sendEmail` call.
- `Script` (script.dfy) holds `main` as `Run`. It consumes the account
  iterator's output, keeps the flagged records, and returns them together with
  an outbox: the list of send calls it made, which holds zero or one email. The
  module also states the filter as a function (`KeepFlagged`) with its lemmas,
  and two concrete scenarios.

## Model

| member | source | states |
|---|---|---|
| Extensions.FindingsFor | disapproved_extensions_checker.js:77-85 | a checker appends exactly one finding per extension its iterator yields |
| Extensions.FindingsForAt | disapproved_extensions_checker.js:80-84 | the i-th appended finding describes the i-th extension: it has the checker's fixed type label, the extension's text, and the extension's approval status verbatim as the disapproval reason |
| Extensions.FindingsForSnoc | disapproved_extensions_checker.js:77-85 | one more yielded extension appends exactly its finding at the end and leaves the earlier findings unchanged |
| Extensions.ProcessedFlag | disapproved_extensions_checker.js:48-62 | a processed account is flagged exactly when one of its seven iterators yields an extension, and it holds one finding per extension yielded across all seven |
| Findings.AccountFindings.constructor | disapproved_extensions_checker.js:48-53 | a new record starts with the account's name and id, the flag false and the list empty, so the flag-iff-non-empty invariant holds |
| Findings.CheckExtensions | disapproved_extensions_checker.js:70-212 | the checker's new list is the old list followed by one finding per extension in iteration order; the flag becomes old flag or "some extension was yielded"; name and id are unchanged; the flag-iff-non-empty invariant is preserved |
| Findings.ProcessAccount | disapproved_extensions_checker.js:45-65 | returns a fresh record with the account's name and id whose list is the Sitelink, Call, Callout, Location, Price, Image and Promotion checkers' outputs concatenated in that order, and whose flag is true exactly when that list is non-empty |
| Report.FindingEntriesAppend | disapproved_extensions_checker.js:224-228 | the entries written for two findings lists back to back are the entries of their concatenation |
| Report.AccountBlocksAppend | disapproved_extensions_checker.js:220-231 | the account blocks written for two result lists back to back are the blocks of their concatenation |
| Report.ReportBodyAppend | disapproved_extensions_checker.js:218-231 | the body for `r1 + r2` is the title followed by the blocks of `r1` and then the blocks of `r2` |
| Report.SplitJoin | disapproved_extensions_checker.js:234 | joining a non-empty recipient list with ',' loses nothing when no address contains a comma: splitting the joined string on ',' gives the list back |
| Report.AppendAccountBlock | disapproved_extensions_checker.js:220-231 | the per-account callback appends exactly that account's block: header `Account: <name> (<id>)`, the 40-dash separator, the Type/Text/Disapproval Reason lines plus a blank line for each finding in order, and a closing newline |
| Report.SendEmailReport | disapproved_extensions_checker.js:217-238 | the single send has `to` equal to the recipients joined with ',', the configured subject, and the body equal to the title followed by one block per record in order |
| Script.KeepFlaggedAppend | disapproved_extensions_checker.js:26-34 | the filter preserves order: what is kept from earlier accounts comes, unchanged, before what is kept from later ones |
| Script.KeepFlaggedSnoc | disapproved_extensions_checker.js:31-33 | one more processed record is appended to the kept list exactly when its flag is set |
| Script.KeepFlaggedMember | disapproved_extensions_checker.js:31-33 | a record is kept if and only if it was produced and its flag is set |
| Script.KeepFlaggedIdempotent | disapproved_extensions_checker.js:26-34 | filtering the kept records again keeps all of them |
| Script.KeptHaveFindings | disapproved_extensions_checker.js:31-33 | every kept record is flagged and has at least one finding |
| Script.NothingKeptIffNoFindings | disapproved_extensions_checker.js:37-39 | nothing is kept, so no report is sent, if and only if no account has a finding |
| Script.Run | disapproved_extensions_checker.js:7-40 | `results` holds, in iteration order, exactly the records of the processed accounts whose flag is true; no send happens when `results` is empty; otherwise exactly one send happens, with the joined recipients, the configured subject and the report body of `results` |
| Script.ShopNowBody | disapproved_extensions_checker.js:218-231 | the body for account A (123) with one Sitelink finding "Shop Now" / DISAPPROVED, written out character for character |
| Script.ScenarioOneDisapprovedSitelink | disapproved_extensions_checker.js:7-40 | with the script's configuration and one account holding one disapproved sitelink, exactly one email goes to `your-email@example.com` with the configured subject and that body |
| Script.ScenarioNoFindings | disapproved_extensions_checker.js:36-39 | two labelled accounts without disapproved extensions lead to no email |

## Left out

- Platform query selectors: the label condition on the account selector (disapproved_extensions_checker.js:19-20) and the `Status = ENABLED` / `ApprovalStatus != APPROVED` conditions on the extension selectors are evaluated by the advertising platform. The model takes the iterators' outputs as already filtered sequences, and nothing here claims that the script itself filters by label, status or approval.
- `AdsManagerApp.select(account)` (line 28) is a process-wide switch of the platform context. Each account's seven extension sequences are inputs of the model instead.
- Platform getters (`getName`, `getCustomerId`, `getLinkText`, `getPhoneNumber`, `getText`, `getAddress`, `getHeaderText`, `getPromotionText`, `getApprovalStatus`) are foreign calls. They are record fields in the model. The customer id is taken as the string the platform returns.
- `MailApp.sendEmail` delivery and its failures are not modelled. Only the arguments of the call are recorded, in the outbox that `Run` returns.
- Errors: the script has no error handling, and a platform exception aborts the run. The model has no error path because the script has none.
- The `labelName` configuration value is carried in `Config`, but it is only read by the platform selector, which is left out.
- JavaScript's string conversion inside template literals and inside `join` is not modelled. All fields are strings already.
