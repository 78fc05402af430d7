# Verified model of the alert collector

This project models, in Dafny, the parts of the muthur alert collector that hold state, interleave or
argue about strings, and proves what they keep over every input and every run. `dafny verify dfyconfig.toml`
checks all of it.

| file | models |
|---|---|
| `Text.dfy`, `Decimal.dfy` | the byte-string and integer routines of Go's library that the collector calls |
| `Regex.dfy` | regular languages, leftmost non-overlapping search, replacement |
| `Patterns.dfy` | the redaction table: order, languages, replacements, pipeline |
| `Redactor.dfy` | the line loop with its byte budget and counters, custom patterns |
| `Reloader.dfy` | certificate hot reload: many handshakes against a writer, one step per file access |
| `Material.dfy` | the certificate directory and its temp-file-and-rename writes |
| `SecretStore.dfy`, `Enrolment.dfy` | the versioned Secret, and bootstrap and renew runs interleaved on it |
| `Runway.dfy` | how much brain outage renewal survives |
| `SignatureParams.dfy`, `HttpSig.dfy` | signature parameters and signature base (sections 2.3 and 2.5 of RFC 9421), signing, verifying |
| `Sealed.dfy`, `HpkeKeys.dfy` | the HPKE envelope (section 5 of RFC 9180) and the brain's key file |
| `SignedClient.dfy`, `KeyRotation.dfy` | the client's key cache and retry, and the cache against a rotating brain in time |
| `Forwarder.dfy` | delivery with bounded retries over gRPC or the signed client |
| `Admission.dfy` | the webhook's bounded worker set |

## Main results

* **What is redacted stays redacted.** For every input, every list of custom patterns and every engine for
  the other rules, no word of the seven bracket-free, boundary-free patterns is left in any output line, markers
  included (`Redactor.PayloadHoldsNoSecret`; spelled out for addresses in `Redactor.NoAddressSurvives`). A
  bracketed replacement is a wall that such a word can neither cross nor be built from (`Regex.WallFree`).
* **Nothing else is touched.** Every line goes through all patterns in order, and each replaces its matches and keeps
  all text around them (`Patterns.LineHistory`, `Regex.ReplaceKeepsTheRest`).
* **A rotation is picked up.** After any interleaved history with increasing mtimes, a handshake that starts on a
  completely rotated, quiet disk can only be served the new certificate, although a slow handshake can put an older
  pair back into the cache (`Reloader.RotationIsPickedUp`, `Reloader.OlderPairCanReturn`). For arbitrary mtimes the
  exact condition is that no outdated pair is cached or about to be (`Reloader.PickedUpIff`).
* **A verified request is a signed one**, in all seven covered values, time and key id
  (`HttpSig.VerifiedMeansSigned`), and a signed request verifies (`HttpSig.SignedVerifies`). A signature base has one
  reading if and only if no value contains the separator next to it (`HttpSig.OnlyReadingIff`).
* **Exact margins.** Renewal survives exactly `floor(before / period) - 1` failed attempts in a row
  (`Runway.RunwayIsExact`), and no request is sealed to a dropped HPKE key exactly when the operator waits the cache
  lifetime plus two call timeouts (`KeyRotation.SafeIffGraceCoversCacheAndCalls`).
* **Nothing mixes in the Secret** under any interleaving of runs with crashes and lost replies: certificate and key
  belong together at every point if and only if every stored reply of the brain fits its own request
  (`Enrolment.SecretStaysWhole`, `Enrolment.StaleWriterFails`).
* **Admission and delivery are bounded**: occupied slots are the alerts in flight, no alert is processed twice,
  no request waits (`Admission.Bounded`, `Admission.Settled`, `Admission.NeverWaits`); a delivery is at most three sends,
  six requests and six seconds of waiting (`Forwarder.DeliveryBounds`).

## How the outside is modelled

* One `char` is one byte. `strings.TrimSpace` and `strings.ToUpper` are modelled on ASCII.
* The regular-expression engine is a function from subject and start position to the end of the match. For the
  seven patterns of the guarantee it must search for the pattern's language (`Regex.Faithful`, which
  `Regex.FaithfulExists` shows can always be met); for all other patterns it may be anything.
* SHA-256, ECDSA, base64, hex, HPKE, AES-GCM, `strconv.Unquote` and key parsing are function-valued fields with
  stated laws; `HttpSig.PrimitivesExist` and `Sealed.SuiteExists` show that the laws can hold together.
* Clocks, files, the network, randomness and the scheduler are parameters or actions of a step system. A run is
  any sequence of enabled actions.
* One writer at a time rotates the certificate files, with any mtimes; that they increase is a hypothesis of
  `Reloader.RotationIsPickedUp` alone, and `Reloader.SameMtimeHidesRotation` exhibits the run that needs it.
* The brain may answer an enrolment with anything. A certificate is known by the request it answers and by whether
  it is the first PEM block of its file.
* Sends, requests, fetches and waits are recorded in ghost fields by the methods that perform them, and the bounds
  are about those fields.
* Log output is left out, and so are metrics except the counters named in a property.

## Where the code and its description differ

The model follows the code.

* The renew flow's comment says that a certificate that does not parse falls through to renewal. That is so exactly
  when the pair still loads, as with another PEM block in front of the certificate
  (`Enrolment.UnreadableIsRenewedIffMatched`); otherwise the run stops at the key pair without writing, and such a
  Secret is never repaired (`Enrolment.BrokenSecretIsNeverRepaired`).
* `CertMaterial.Exists` is described as checking that the pair parses; it checks presence only
  (`Material.Dir.Exists`).
* `WriteMaterial` is described as atomic; it is so per file, and a stop after the first rename leaves a certificate
  beside the old key (`Material.HalfRotated`; the exact condition is `Material.WhenThePairMatches`).
* The reloader keeps serving the cached certificate across a failed first stat or a pair that does not load, but not
  across a failed second stat (`Reloader.OnlySecondStatFails`, `Reloader.SecondStatFailsDespiteCache`).
* The documentation says that collectors pick a new HPKE key up within 24 hours; as a time to wait before removing
  the old one that is one minute short (`KeyRotation.DocumentedGraceIsShort`).
* The chart's values speak of two daily attempts of runway; two attempts are made in time, of which one may fail
  (`Runway.ChartDefaults`).

## Model

| member | source | states |
|---|---|---|
| `Regex.FindAll` | internal/redact/redactor.go:178 | the matches are in order, inside the subject and do not overlap, whatever the engine reports |
| `Regex.FindAllMeaning` | internal/redact/redactor.go:178 | every span is a match that the engine reports, none that is empty stands right behind another, and every match of the engine is found, starts inside one that is, or is an empty one right behind it |
| `Regex.ReplaceKeepsTheRest` | internal/redact/redactor.go:180 | the subject is gaps and matches in turn, and the result the same gaps with the replacement in place of every match: text outside a match survives |
| `Regex.NeverUsesSound` | internal/redact/patterns.go:18-38 | if no part of an expression can produce a byte, no word of its language contains it |
| `Regex.AlwaysHitsSound` | internal/redact/patterns.go:18-38 | if every branch of an expression goes through one of some bytes, every word contains one of them |
| `Regex.WallFree` | internal/redact/redactor.go:180 | a bracketed replacement between two texts free of a bracket-free pattern creates no word of it, across it or inside it |
| `Regex.GapsOfOwnSearch` | internal/redact/redactor.go:178 | between the matches that leftmost non-overlapping search finds there is no further word of the pattern |
| `Regex.StageMakesFree` | internal/redact/redactor.go:177-181 | a pattern's own stage leaves no word of it anywhere in its output |
| `Regex.StageKeepsFree` | internal/redact/redactor.go:177-181 | a stage of any other pattern, matching whatever it likes, brings no word of a clean pattern back |
| `Regex.FaithfulExists` | internal/redact/patterns.go:18-38 | every expression has an engine that meets the assumption of the redaction theorems |
| `Text.TrimMeaning` | internal/redact/rules.go:17 | trimming takes blanks off both ends and nothing else |
| `Decimal.DigitsOf` | internal/redact/redactor.go:121 | the digits of a number, most significant first |
| `Decimal.SignMeaning` | internal/auth/httpsig.go:208 | what is read as a 64-bit number, with and without a sign |
| `Patterns.ReplacementsAreWalls` | internal/redact/patterns.go:16-53 | all twenty replacements are bracketed and made of lower-case letters and hyphens |
| `Patterns.PermanentIsClean` | internal/redact/patterns.go:18-38 | bearer, jwt, basic, aws-key, aws-secret, private-key and email use no bracket, and each needs a byte that no replacement has, also under case folding |
| `Patterns.PipelineKeepsFree` | internal/redact/redactor.go:177-184 | a text free of a clean pattern stays so through any further stages |
| `Patterns.PipelineMakesFree` | internal/redact/redactor.go:177-184 | wherever a clean pattern stands in a pipeline of bracketed replacements, the final text holds no word of it |
| `Patterns.NothingPermanentSurvives` | internal/redact/redactor.go:175-190 | for every line and every custom list after the built-in table, none of the seven patterns has a word in the redacted line |
| `Patterns.LineHistory` | internal/redact/redactor.go:175-190 | a line goes through every pattern once and in order, and the counts are those of the matches found on the way |
| `Patterns.NothingFoundNothingChanged` | internal/redact/redactor.go:177-184 | a line in which nothing is found stays as it is |
| `Patterns.AddressIff` | internal/redact/patterns.go:38 | the words of the email rule are exactly a user part, `@`, a host part, a dot and at least two letters |
| `Patterns.JwtIff` | internal/redact/patterns.go:19 | the words of the jwt rule, exactly |
| `Patterns.AwsKeyIff` | internal/redact/patterns.go:21 | the words of the aws-key rule, exactly |
| `Patterns.PrivateKeyIff` | internal/redact/patterns.go:23 | the words of the private-key rule, exactly |
| `Patterns.BearerIsWord` | internal/redact/patterns.go:18 | keyword in any case, blanks, token and equal signs make a word of the bearer rule |
| `Patterns.BasicIsWord` | internal/redact/patterns.go:20 | the same for the basic rule |
| `Patterns.AwsSecretIsWord` | internal/redact/patterns.go:22 | both names in any case, a sign with or without blanks and forty bytes make a word of the aws-secret rule |
| `Patterns.TableEntry` | internal/redact/patterns.go:16-53 | each rule stands at its position with its category, name and replacement |
| `Patterns.ReplacementNamesItsRule` | internal/redact/patterns.go:16-53 | a rule is replaced by its own name, but for bearer tokens, cards and addresses of hosts |
| `Patterns.MoreSpecificFirst` | internal/redact/patterns.go:14-16 | cards, account numbers and UUIDs go before phone numbers, and the categories stand together |
| `Redactor.ParseExtraPatterns` | internal/redact/rules.go:10-35 | the loop yields, in order, the trimmed parts that are not blank and compile, each with the bracketed replacement |
| `Redactor.CustomWalls` | internal/redact/rules.go:27-32 | every custom pattern is replaced by a bracketed word, so the guarantee extends over all of them |
| `Redactor.CustomMeaning` | internal/redact/rules.go:16-33 | part by part, a pattern for every part that is not blank and compiles, and nothing for the others |
| `Redactor.SumSplit` | internal/redact/redactor.go:183 | the sum over the category map does not depend on the order in which it is read |
| `Redactor.TallyMeaning` | internal/redact/redactor.go:175-190 | each category counter grows by the replacements of its own patterns, and all of them together by the total |
| `Redactor.ReportMeaning` | internal/redact/redactor.go:94-130 | the counters after any number of lines are the counts of oversize lines, changed lines and replacements, and the total is the sum over the categories |
| `Redactor.SweepIsPipeline` | internal/redact/redactor.go:175-190 | the pattern loop computes the pipeline's text, its number of replacements and its category counters |
| `Redactor.LongestFitByEdge` | internal/redact/redactor.go:118-123 | a cut in front of the first line that overflows the budget is the longest prefix that fits |
| `Redactor.Redactor.constructor` | internal/redact/redactor.go:59-92 | built-in patterns come first, custom ones after them; a guard that is not positive becomes 8 KiB, 256 KiB or 16 KiB, so none can be switched off |
| `Redactor.Redactor.RedactLine` | internal/redact/redactor.go:175-190 | the text after all patterns in order; the counters grow by exactly what was replaced |
| `Redactor.Redactor.RedactString` | internal/redact/redactor.go:153-173 | empty stays empty, past the cap the marker, else the same text as the line path |
| `Redactor.Redactor.Redact` | internal/redact/redactor.go:94-143 | the longest prefix that fits comes out line by line, oversize lines as marker, and one marker with the exact number replaces the rest; counters include the line that hit the budget |
| `Redactor.PayloadConservation` | internal/redact/redactor.go:94-143 | forwarded plus dropped is the total, output no longer than input, forwarded bytes within the budget, replacements equal the sum over the categories and over the lines |
| `Redactor.OutputLines` | internal/redact/redactor.go:99-127 | in front of the cut a line over the cap comes out as the marker and any other as its redacted text; behind them the marker with the number of lines it replaces |
| `Redactor.BudgetEdge` | internal/redact/redactor.go:118-123 | the first line behind the cut is no oversize one, and its text would exceed the budget |
| `Redactor.LineMarkerIs` | internal/redact/redactor.go:34 | the text of the oversize marker |
| `Redactor.StringMarkerIs` | internal/redact/redactor.go:30 | the text of the string marker |
| `Redactor.BudgetMarkerIs` | internal/redact/redactor.go:121 | the text of the budget marker |
| `Redactor.PayloadHoldsNoSecret` | internal/redact/redactor.go:94-143 | no output line, marker or text, holds a word of one of the seven patterns |
| `Redactor.NoAddressSurvives` | internal/redact/adversarial_test.go:133-169 | no address, whatever surrounds it, is a substring of any output line |
| `Redactor.StringHoldsNoSecret` | internal/redact/redactor.go:153-173 | the same guarantee for a free-text field |
| `Reloader.ApplyInv` | internal/auth/reloader.go:47-83 | every step of every handshake and of the writer, with any mtimes, keeps: matched pairs, recorded with an mtime of their own certificate or an earlier one |
| `Reloader.ReachableIsMatched` | internal/auth/reloader.go:57-83 | in every reachable state the cached pair and every served pair are matched, and if the mtimes never go back the recorded mtime is at most that of the certificate |
| `Reloader.IncreasingIsClear` | internal/auth/reloader.go:57-59 | with increasing mtimes, a pair recorded with an mtime that reaches the file's is the pair on the disk |
| `Reloader.PickedUpIff` | internal/auth/reloader.go:47-83 | after any history with any mtimes, every quiet call that starts after a complete rotation is served the new pair under every interleaving if and only if no outdated pair is cached or about to be stored |
| `Reloader.DeceptiveIsMissed` | internal/auth/reloader.go:57-59 | otherwise a quiet call that is served the outdated pair is exhibited |
| `Reloader.RotationIsPickedUp` | internal/auth/reloader.go:47-83 | if the mtimes increase, a call that starts after a complete rotation, on a quiet disk and without I/O errors of its own, is served the new pair whatever the other calls store |
| `Reloader.CallsFinish` | internal/auth/reloader.go:47-83 | a call can always step and ends after at most six steps of its own |
| `Reloader.CacheStays` | internal/auth/reloader.go:81 | the cache, once filled, is never cleared |
| `Reloader.OnlySecondStatFails` | internal/auth/reloader.go:67-80 | with a populated cache a call fails only through the second stat, under every interleaving |
| `Reloader.SecondStatFailsDespiteCache` | internal/auth/reloader.go:68-71 | that failure happens although a cached pair exists |
| `Reloader.OlderPairCanReturn` | internal/auth/reloader.go:72-81 | from every start-up there is a run in which the rotated pair is cached and then replaced by the older one |
| `Reloader.SameMtimeHidesRotation` | internal/auth/reloader.go:57-59 | from every start-up a run with a complete rotation that leaves the mtime as it was, after which a quiet call is served the old pair |
| `Reloader.SoloLoad` | internal/auth/reloader.go:67-83 | what an undisturbed load caches and returns for every combination of I/O results |
| `Reloader.SoloIsRun` | internal/auth/reloader.go:47-83 | an undisturbed call is one of the runs of the step system |
| `Reloader.ClientReloader.New` | internal/auth/reloader.go:33-42 | an object exists exactly when both paths are given and the pair loads, and then the pair is cached |
| `Reloader.ClientReloader.Load` | internal/auth/reloader.go:67-83 | result and cache are those of the step system; a failure leaves the cache alone |
| `Reloader.ClientReloader.GetClientCertificate` | internal/auth/reloader.go:47-65 | result and cache are those of the step system run to the end of the call |
| `Material.Dir.WriteAtomic` | internal/auth/keypair.go:130-157 | the target is old or wholly new, no other file changes, only a crash leaves a temporary file |
| `Material.Dir.WriteMaterial` | internal/auth/keypair.go:109-128 | four possible end states in the order certificate, key, CA, each exactly characterised by the arguments and the point where the write stops; an empty CA keeps the old one |
| `Material.Dir.Exists` | internal/auth/keypair.go:47-55 | both files are present, nothing about their contents |
| `Material.WhenThePairMatches` | internal/auth/keypair.go:116-121 | a rotation leaves a matching pair exactly when both renames happen, or when it does not begin over one |
| `Material.HalfRotated` | internal/auth/keypair.go:116-121 | a process that dies after the first rename leaves the new certificate beside the old key |
| `SecretStore.NewData` | internal/auth/secret_store.go:101-123 | the new certificate and key, and the new CA or else the stored one |
| `SecretStore.Store.Exists` | internal/auth/secret_store.go:68-77 | non-empty certificate and key; a missing Secret is no error |
| `SecretStore.Store.Read` | internal/auth/secret_store.go:81-87 | the three stored values; a missing Secret is an error |
| `SecretStore.Store.Write` | internal/auth/secret_store.go:92-149 | succeeds exactly over the very Secret it read; an overtaken writer changes nothing; a stored CA is not lost |
| `Enrolment.ApplyInv` | internal/auth/flows.go:73-243 | every step of every run, whatever the brain answers, keeps fresh requests, newer versions, the stored CA and a provisioned Secret |
| `Enrolment.SecretStaysWhole` | internal/auth/secret_store.go:92-149 | under every interleaving with crashes and any replies, certificate and key belong together or are those found at the start, at every point, if and only if every reply that gets stored fits its own request; and a CA once stored never disappears |
| `Enrolment.StaleWriterFails` | internal/auth/secret_store.go:98-115 | a run whose Get has been overtaken fails, however much later, and stores nothing |
| `Enrolment.BootstrapIsIdempotent` | internal/auth/flows.go:81-90 | once a pair is stored, no bootstrap run that starts later contacts the brain |
| `Enrolment.WriteProvisions` | internal/auth/flows.go:114-116 | a successful write stores a pair, which starts that guarantee |
| `Enrolment.OnlyTheWriteWrites` | internal/auth/flows.go:153-243 | no step before the final request of a run changes the Secret |
| `Enrolment.BrokenSecretIsNeverRepaired` | internal/auth/flows.go:179-201 | from a pair that does not load, no number of bootstrap and renew runs changes the Secret or contacts the brain |
| `Enrolment.UnreadableIsRenewedIffMatched` | internal/auth/flows.go:179-201 | with a certificate whose validity cannot be read, a run proceeds to the brain if and only if the pair loads |
| `Enrolment.RenewDecision` | internal/auth/flows.go:174-201 | by what the stored pair is: a certificate as first block with more than the threshold left is skipped with success; else a certificate with the key of its own request goes to the brain; anything else ends the run |
| `Enrolment.BootstrapDecision` | internal/auth/flows.go:81-99 | a stored pair, whatever it is, ends the run with success; else a token that is not blank is needed |
| `Enrolment.StoredAfterContact` | internal/auth/flows.go:110-116 | a run that succeeds after a contact has stored the reply, the key of its request and the new or the old CA over an unchanged Secret |
| `Enrolment.RunBootstrap` | internal/auth/flows.go:73-122 | exactly when the brain is contacted, when the run succeeds, and what the Secret then is |
| `Enrolment.RunRenew` | internal/auth/flows.go:153-243 | exactly when the run skips, when the brain is contacted, when it succeeds, and what the Secret then is |
| `Enrolment.SoloIsRun` | internal/auth/flows.go:73-243 | an undisturbed run is one of the runs of the step system |
| `Enrolment.SoloBootstrap` | internal/auth/flows.go:73-122 | there an undisturbed bootstrap run ends as the method does |
| `Enrolment.SoloRenew` | internal/auth/flows.go:153-243 | and so does an undisturbed renew run |
| `Runway.OutageSurvived` | internal/auth/flows.go:174-196 | with at most floor(before/period)-1 failures in a row the certificate never expires, at a tick or between two |
| `Runway.OutageTooLong` | internal/auth/flows.go:174-196 | for every plan one more failure can end in an expired certificate |
| `Runway.RunwayIsExact` | internal/auth/flows.go:174-196 | a bound on consecutive failures keeps every run valid if and only if it is at most floor(before/period)-1 |
| `Runway.TickMeaning` | internal/auth/flows.go:174-196 | a run that reaches the brain inside the threshold leaves a whole lifetime, any other leaves what there was |
| `Runway.ChartDefaults` | helm/muthur-collector/values.yaml:82-89 | daily runs with 48h and 168h have a budget of one failed attempt |
| `SignatureParams.PrintParams` | internal/auth/httpsig.go:80-91 | the loop prints the component list and the three parameters |
| `SignatureParams.ListNames` | internal/auth/httpsig.go:83-88 | the list, split at blanks inside its parentheses, is the seven components in quotation marks |
| `SignatureParams.InnerNames` | internal/auth/httpsig.go:83-88 | any list of names is printed one by one in quotation marks |
| `SignatureParams.ParamsText` | internal/auth/httpsig.go:89 | the list, then created, alg and keyid with their values |
| `SignatureParams.ParseSignatureParams` | internal/auth/httpsig.go:184-231 | the loop with its `seen` map computes the parse whose laws follow |
| `SignatureParams.ParseIff` | internal/auth/httpsig.go:184-231 | accepted exactly: the expected list, then one created, one alg and one keyid in any order, with those values |
| `SignatureParams.AfterListIff` | internal/auth/httpsig.go:185-193 | the component list is accepted exactly when the text begins with the printed one |
| `SignatureParams.LexMeaning` | internal/auth/httpsig.go:201-222 | which segment is read as which parameter, for every segment |
| `SignatureParams.OrderDoesNotMatter` | internal/auth/httpsig.go:197-226 | texts with the same parameters in another order parse alike |
| `SignatureParams.OnlyThreeParameters` | internal/auth/httpsig.go:201-229 | a duplicate, missing, additional or unknown parameter is refused |
| `SignatureParams.ParamsRoundTrip` | internal/auth/httpsig.go:80-91 | parsing what was printed gives back every 64-bit time and hex key id |
| `HttpSig.BaseOver` | internal/auth/httpsig.go:96-112 | the loop prints one line per component with its value, for any component list |
| `HttpSig.SignatureBase` | internal/auth/httpsig.go:96-112 | the signature base of the fixed component list |
| `HttpSig.BaseText` | internal/auth/httpsig.go:96-112 | split at line ends, the base is the upper-case method, the path, the five headers without the blanks around them and the parameters, each behind its quoted name |
| `HttpSig.LinesSplit` | internal/auth/httpsig.go:108-110 | any list of entries is printed line by line |
| `HttpSig.ToUpperIff` | internal/auth/httpsig.go:102 | methods are equal in upper case exactly when they differ at most in the case of letters |
| `HttpSig.OnlyReadingIff` | internal/auth/httpsig.go:98-110 | lines have one reading if and only if no value contains the separator in front of it or behind it |
| `HttpSig.LinesAreBinding` | internal/auth/httpsig.go:98-110 | in particular values without line ends have no other reading at all |
| `HttpSig.LineEndsMakeItAmbiguous` | internal/auth/httpsig.go:96-112 | for the fixed component list, a part between two separators can end the path or begin the digest header with the same base |
| `HttpSig.TwoRequestsOneBase` | internal/auth/httpsig.go:96-112 | one such pair of requests |
| `HttpSig.Request.Sign` | internal/auth/httpsig.go:117-133 | adds the two signature headers over the base of the headers present; an error changes nothing |
| `HttpSig.VerifiedMeansSigned` | internal/auth/httpsig.go:145-180 | if verification succeeds and the signed bases have one reading, one signing had the same method up to case, path, five trimmed headers, time and key id |
| `HttpSig.OneLineJobs` | internal/auth/httpsig.go:114-122 | signed values without line ends have a base with one reading |
| `HttpSig.VerifiedBody` | internal/auth/httpsig.go:64-71 | with the digest header checked, the body is the signed one |
| `HttpSig.DigestRoundTrip` | internal/auth/httpsig.go:58-71 | the digest header of a body passes for another one exactly when their hashes are equal |
| `HttpSig.VerifyIff` | internal/auth/httpsig.go:145-180 | a request is accepted exactly when the key is usable and the trimmed headers carry, behind the label, parameters and 64 bytes that verify over the base |
| `HttpSig.VerifyErrors` | internal/auth/httpsig.go:145-180 | which request is refused why |
| `HttpSig.SignedVerifies` | internal/auth/httpsig.go:117-180 | what was signed verifies under the public half and reports its time and key id |
| `HttpSig.PrimitivesExist` | internal/auth/httpsig.go:117-180 | there are primitives with all the assumed laws |
| `Sealed.AadInjective` | internal/auth/sealed.go:60-62 | timestamp and nonce are determined by the additional data if the timestamps have no line end |
| `Sealed.AadOnlyReading` | internal/auth/sealed.go:60-62 | the additional data belongs to no other timestamp and nonce if and only if neither has a line end |
| `Sealed.ExchangeRoundTrip` | internal/auth/sealed.go:81-134 | opening undoes sealing for every plaintext, and the response sealed by the opening side is read by the sealing side |
| `Sealed.SealedText` | internal/auth/sealed.go:81-99 | the version byte, the encapsulated key and the ciphertext, for the prefixed path and the two headers |
| `Sealed.OpenErrors` | internal/auth/sealed.go:229-246 | an unknown key id comes first, then a body that is too short, of another version or does not open |
| `Sealed.ResponseText` | internal/auth/sealed.go:102-134 | the response is version, nonce and ciphertext; shorter ones and other versions are refused |
| `Sealed.EnvelopeIsBound` | internal/auth/sealed.go:229-252 | an envelope opens for no other path, timestamp or nonce, under any key, and only to what was sealed, unless line ends make the additional data ambiguous |
| `Sealed.EnvelopeBoundIff` | internal/auth/sealed.go:229-252 | it opens for no other timestamp and nonce if and only if neither of its own has a line end |
| `Sealed.SuiteExists` | internal/auth/sealed.go:53-56 | there is a suite with all the assumed laws |
| `HpkeKeys.ParseHPKEKeys` | internal/auth/sealed.go:176-210 | accepted exactly when no key block is unusable and there is one; the error is that of the first unusable block, or that there is no key |
| `HpkeKeys.CollectValid` | internal/auth/sealed.go:199-204 | the order has no duplicates and lists exactly the keys held, each under its own id |
| `HpkeKeys.CollectComplete` | internal/auth/sealed.go:199-204 | every key of the file is held under its id, the first of those with the same id, and the ids are listed as they first occur |
| `HpkeKeys.Public` | internal/auth/sealed.go:219-225 | the ids in order with the public keys of the keys held |
| `HpkeKeys.CollectConcat` | internal/auth/sealed.go:176-210 | the keys of two files one after the other, in terms of each |
| `HpkeKeys.AcceptedConcat` | internal/auth/sealed.go:176-210 | exactly when two files one after the other are accepted |
| `HpkeKeys.PrependRotates` | docs/signed-transport.md:167-170 | prepending a key file makes its first key active, keeps every old id accepted, and gives a file that is accepted if both are |
| `HpkeKeys.OldRequestsStillOpen` | docs/signed-transport.md:167-170 | a request sealed to any old key opens after the rotation |
| `SignedClient.UsableKeysMatch` | internal/auth/signedclient.go:348-362 | every key kept from a list has its own id and comes from a usable entry |
| `SignedClient.UsableKeysAre` | internal/auth/signedclient.go:348-362 | the kept keys are those of the usable entries, all of them, in list order |
| `SignedClient.UsableIff` | internal/auth/signedclient.go:350-360 | which entries are usable |
| `SignedClient.ActiveKeyIsFirst` | internal/auth/signedclient.go:361-366 | after a fetch the active key is that of the first usable entry |
| `SignedClient.SignedClient.FetchKeys` | internal/auth/signedclient.go:295-369 | a usable list replaces the cache, anything else leaves it as it was |
| `SignedClient.SignedClient.ActiveKey` | internal/auth/signedclient.go:263-272 | fetches exactly when asked, empty or older than a day; returns the first cached key, or that of the first usable entry of the fetched list |
| `SignedClient.SignedClient.Once` | internal/auth/signedclient.go:190-248 | outcome and cache, and by how much the recorded fetches and requests grow: one fetch at most, then one request sealed to the active key |
| `SignedClient.SignedClient.Call` | internal/auth/signedclient.go:177-188 | a second attempt with fresh keys exactly when the first is told that the key is unknown; the recorded requests and fetches grow by at most two each |
| `SignedClient.CallBounds` | internal/auth/signedclient.go:177-188 | what a call records: at most two requests and two fetches, the second request only after an unknown key, ids match their keys |
| `SignedClient.RetriedIffUnknown` | internal/auth/signedclient.go:183-187 | a second attempt exactly after an error with code hpke_key_unknown |
| `SignedClient.SucceedsIff` | internal/auth/signedclient.go:177-188 | when a call succeeds, from the cache and the brain alone |
| `SignedClient.CallRecovers` | internal/auth/signedclient.go:177-188 | if the brain lists what it holds from the retry on, the second request goes to a held key and the outcome is the brain's answer |
| `SignedClient.DroppedKeyIsDetected` | internal/auth/signedclient.go:183-187 | a cached key that the brain dropped leads into that retry |
| `KeyRotation.ApplyInv` | internal/auth/signedclient.go:263-272 | every step of client, brain and time keeps the record of when each used key was last advertised first |
| `KeyRotation.LateUse` | docs/signed-transport.md:167-170 | for every shorter grace there is a run that uses a dropped key |
| `KeyRotation.SafeIffGraceCoversCacheAndCalls` | internal/auth/signedclient.go:366-367 | no run uses a dropped key if and only if the grace is at least the cache lifetime plus two call timeouts |
| `KeyRotation.DocumentedGraceIsShort` | docs/signed-transport.md:167-170 | 24 hours are not enough, one minute more is |
| `Forwarder.Forwarder.Send` | internal/forwarder/forwarder.go:180-196 | outcome, key cache, and by how much the recorded sends and requests grow, on either transport |
| `Forwarder.Forwarder.Backoff` | internal/forwarder/forwarder.go:146-160 | a retry is counted and the wait recorded, whole or cut short |
| `Forwarder.Forwarder.Forward` | internal/forwarder/forwarder.go:140-178 | the recorded sends, requests, waits and retries grow by those up to the first send that succeeds, fails for good, is the third or is followed by a cancelled backoff; one of ok and error is counted |
| `Forwarder.DeliveryBounds` | internal/forwarder/forwarder.go:140-178 | what Forward has recorded: at most three sends, six requests, six seconds and two retries; nothing after a success, a permanent error or a cancellation; ok counted once exactly when the last send succeeded; a transient end means three sends |
| `Forwarder.GrpcSend` | internal/forwarder/forwarder.go:192-196 | a gRPC send succeeds exactly when the call does, and else fails with its code |
| `Forwarder.SignedSend` | internal/forwarder/forwarder.go:181-187 | a signed send succeeds exactly when the certificate loads and the request to the key in use, or after a disowned key the one to the first fresh key, is granted |
| `Forwarder.OkIff` | internal/forwarder/forwarder.go:145-178 | ok is counted exactly when one of three sends succeeds after failures worth a retry and whole backoffs |
| `Forwarder.GrpcOkIff` | internal/forwarder/forwarder.go:145-178 | the same over gRPC, from the codes and cancellations alone |
| `Forwarder.PermanentIff` | internal/forwarder/forwarder.go:202-213 | which errors end a delivery; a network failure does not |
| `Forwarder.WaitsBound` | internal/forwarder/forwarder.go:148-160 | the waits are nothing, two, or two and four seconds, and what has passed of a cut one |
| `Forwarder.DeliveryUnique` | internal/forwarder/forwarder.go:145-175 | those rules determine the whole delivery |
| `Forwarder.AsDocumented` | docs/signed-transport.md:130-142 | an error documented as final ends the delivery at once; one documented as retried ends it only when the attempts are used up or the backoff is cancelled |
| `Forwarder.PostsBound` | internal/auth/signedclient.go:177-188 | any number of sends post at most twice as many requests |
| `Forwarder.DroppedKeyCostsNoRetry` | internal/auth/signedclient.go:183-187 | a dropped key is repaired inside the first send, with two requests and no waiting |
| `Forwarder.KeyUnknownTwiceIsFinal` | internal/forwarder/forwarder.go:202-213 | a second unknown-key answer is a permanent error, so the delivery ends |
| `Admission.ApplyInv` | internal/webhook/handler.go:82-97 | every step of every request and worker keeps slots, counters, phases and calls in agreement |
| `Admission.Bounded` | internal/webhook/handler.go:82-97 | in every reachable state occupied slots are the alerts in flight and at most the capacity, received is dropped plus in flight plus finished, no alert is processed twice or after being dropped |
| `Admission.Settled` | internal/webhook/handler.go:82-97 | once all is quiet, each alert was either dropped or processed, exactly once |
| `Admission.DroppedOnlyWhenFull` | internal/webhook/handler.go:84-96 | an alert is dropped exactly when the capacity is in flight |
| `Admission.ReleaseNeverBlocks` | internal/webhook/handler.go:87 | a finished worker always finds a token to take back |
| `Admission.NeverWaits` | internal/webhook/handler.go:82-101 | an unanswered request can always step by itself, and is answered after at most two steps per alert and one more |
| `Admission.Handler.constructor` | internal/webhook/handler.go:42-51 | a capacity that is not positive becomes 50 |
| `Admission.Handler.ServeHTTP` | internal/webhook/handler.go:53-101 | 405, 400 or 200; a refused request changes nothing, an accepted one ends answered with all its alerts settled, in a run of the step system |

## Left out

- The redaction guarantee is not claimed for the other thirteen rules: those with `\S+` may match over a
  replacement, and those with `\b` depend on neighbouring bytes that a later replacement may change.
- The regular-expression engine and the languages of those thirteen rules, and everything that only affects which
  match an engine prefers.
- White space and case outside ASCII in trimming and upper-casing.
- Cryptographic primitives, X.509, PEM, base64, protobuf and JSON are assumed functions; key-list signatures are
  an input of the fetch.
- SignedClient.SignedClient.Once: local failures between key selection and sending (sealing, signing, request
  set-up) are folded into the request's outcome, so the request bounds count such an attempt as a request.
- `FilePersister` is not modelled beyond `WriteMaterial` and `Exists`; the interleaved runs are over the Secret.
- The kubelet's projection of the Secret into files, and symlink swaps.
- Several writers rotating the files at the same time.
- `ClientReloader.Current`, the gRPC client, TLS dialling and client construction: plumbing.
- Loki and Prometheus clients, Kubernetes lookups, event fetching, alert resolution and pipeline assembly: simple
  cases settled by reading one branch.
- Configuration, logging, metrics other than those named above, charts and scripts.
