# VNL Scanner core, modelled in Dafny

VNL Scanner is an educational web application. Its "scan" of a website is a
simulated report, derived deterministically from the host name:

- a 32-bit string hash of the host gives a seed;
- the seed picks 1–7 findings from a fixed catalog of ten vulnerabilities;
- the findings are counted by severity, and the counts give a security score
  and a risk level;
- each finding is mapped to a remediation recommendation, with two general
  ones appended when there are few;
- a technical profile (technologies, server header, optional CSP header,
  open ports, IPv4 address, DNS records) is synthesised from the same seed.

The application also has a scripted security chatbot and three form handlers:
login, register and the scanner's URL form. The chatbot matches a query
against a fixed keyword table and keeps an append-only conversation history.
Each form handler runs an ordered list of checks before it makes a single
call.

The model is functional: immutable datatypes and pure functions over `int`,
`seq` and `string`. The one method is `DomainHash.HashCode`, which follows the
source's loop.

| file | module | what it holds |
|---|---|---|
| `wrappers.dfy` | `Wrappers` | `Option` |
| `int32.dfy` | `Int32` | ECMAScript ToInt32 (`Wrap32`), `<< 5`, `x & x` |
| `text.dfy` | `Text` | white space and `trim`-blankness, `includes`, ASCII `toLowerCase`, UTF-16 code units, `indexOf`, `split`/`join` |
| `domain_hash.dfy` | `DomainHash` | `hashCode`: as written, as a fold, and as a loop |
| `vulnerabilities.dfy` | `Vulnerabilities` | the catalog and `generateVulnerabilities` |
| `scoring.dfy` | `Scoring` | severity counts, score and risk level |
| `recommendations.dfy` | `Recommendations` | the recommendation table and `generateRecommendations` |
| `tech_profile.dfy` | `TechProfile` | `generateTechnicalDetails` |
| `scanner.dfy` | `Scanner` | `scanForVulnerabilities`: the assembled report |
| `chatbot.dfy` | `Chatbot` | knowledge base, `findBestMatch`, `generateResponse`, `createNewChat`, `addMessage` |
| `forms.dfy` | `Forms` | submit outcomes, the email pattern `/\S+@\S+\.\S+/` |
| `login_form.dfy`, `register_form.dfy`, `scan_form.dfy` | `LoginForm`, `RegisterForm`, `ScanForm` | the three `handleSubmit` ladders |

Inputs the source takes from its environment are parameters here:

- `Math.random()` is a `draw` with `0.0 <= draw < 1.0`.
- The current date is a string.
- The host name that `new URL(url).hostname` produces is `host`.
- Whether `new URL(...)` accepts a string is `parses: string -> bool`.
- The engine's `Array.prototype.sort` is `sortWith`: for each value a
  comparator could constantly return, the permutation of the catalog it
  leaves.

The source's comparator ignores its arguments and returns `seed % 13 - 6`
for every pair. The resulting order therefore depends on both the engine's
sorting algorithm and that value, so the selector applies `sortWith` to the
seed's comparator value. `Vulnerabilities.RunSort` is one such engine: a
sort that first detects runs, as V8's TimSort does. It reverses the catalog
under a negative value and keeps declaration order otherwise.

## Model

| member | source | states |
|---|---|---|
| `Int32.Wrap32` | src/lib/scanner.ts:423 | the result is a signed 32-bit value congruent to the input modulo 2^32, as the bitwise operators convert their operands |
| `Int32.ShiftLeft5` | src/lib/scanner.ts:422 | `h << 5` is a signed 32-bit value congruent to 32·h modulo 2^32 |
| `Int32.AndSelf` | src/lib/scanner.ts:423 | `h & h` is a signed 32-bit value congruent to h |
| `Int32.Wrap32Congruent` | src/lib/scanner.ts:422-423 | inputs congruent modulo 2^32 wrap to the same value |
| `Int32.Wrap32Identity` | src/lib/scanner.ts:423 | values already in the signed 32-bit range are unchanged by the conversion |
| `Text.SpaceIsInvisible` | src/pages/LoginPage.tsx:37-43 | `IsSpace` is the ECMAScript WhiteSpace and LineTerminator set that both `trim` and `\s` use; every such character is one UTF-16 unit and none is printable ASCII |
| `Text.TrimStart` | src/pages/LoginPage.tsx:37 | what is left is a suffix of the input that starts with no white space, and everything dropped is white space |
| `Text.TrimEnd` | src/pages/LoginPage.tsx:37 | what is left is a prefix of the input that ends with no white space, and everything dropped is white space |
| `Text.Trim` | src/pages/LoginPage.tsx:37 | `trim` returns a contiguous part of the input with only white space before and after it; it is empty iff every character is white space, and otherwise neither starts nor ends with white space |
| `Text.IsBlank` | src/pages/LoginPage.tsx:37 | `!s.trim()` holds iff every character of the string is white space, the empty string included |
| `Text.VisibleFirstNotBlank` | src/pages/LoginPage.tsx:37 | text starting with a printable ASCII character is never blank |
| `Text.Contains` | src/lib/chatbot.ts:93 | the empty string is contained in every string, and a contained needle is never longer than the text |
| `Text.Lower` | src/lib/chatbot.ts:89 | lower-casing keeps the length and maps each character independently |
| `Text.LowerIdempotent` | src/lib/chatbot.ts:113-114 | lower-casing the already lower-cased query again changes nothing |
| `Text.Utf16` | src/pages/RegisterPage.tsx:50 | `.length` is the number of characters plus one per character outside the basic plane; the empty string has no units |
| `Text.Utf16Append` | src/lib/scanner.ts:420-421 | encoding is character by character: the units of two joined strings are their units joined |
| `Text.Utf16OfBasicPlane` | src/lib/scanner.ts:420-421 | for text without astral characters, `charCodeAt(i)` is the i-th character's code and `length` is the character count |
| `Text.IndexOf` | src/lib/scanner.ts:405 | the result is the first position holding the character, or none when it does not occur |
| `Text.Split` | src/lib/scanner.ts:405 | `split` yields at least one part, no part contains the separator, and exactly one part iff the separator is absent |
| `Text.JoinSplit` | src/lib/scanner.ts:405 | joining the parts with the separator gives back the original string |
| `DomainHash.StepAsWritten` | src/lib/scanner.ts:422-423 | one loop step as written is a signed 32-bit value |
| `DomainHash.Step` | src/lib/scanner.ts:422-423 | one step is a signed 32-bit value congruent to 31·h + c |
| `DomainHash.StepAsWrittenIsStep` | src/lib/scanner.ts:422-423 | shift, subtract, add and mask equal ToInt32 of 31·h + c |
| `DomainHash.Fold` | src/lib/scanner.ts:419-424 | after any prefix of the code units, the running hash is a signed 32-bit value |
| `DomainHash.Abs` | src/lib/scanner.ts:425 | `Math.abs` returns the value or its negation, never negative |
| `DomainHash.Seed` | src/lib/scanner.ts:418-426 | the seed of a host lies in [0, 2^31]; the empty host has seed 0 |
| `DomainHash.FoldSnoc` | src/lib/scanner.ts:420-424 | one more code unit is one more step |
| `DomainHash.HashCode` | src/lib/scanner.ts:418-426 | the loop computes `Seed`, which lies in [0, 2^31] |
| `DomainHash.ExampleDotCom` | src/lib/scanner.ts:418-426 | "example.com" has seed 1944013059, giving 3 findings, 7 technologies and 5 ports |
| `Vulnerabilities.PoolNamesDistinct` | src/lib/scanner.ts:89-176 | the catalog has ten entries with pairwise distinct names |
| `Vulnerabilities.ComparatorValue` | src/lib/scanner.ts:182 | the comparator returns `seed % 13 - 6` for every pair, a value in [-6, 6] that is negative iff `seed % 13 < 6` |
| `Vulnerabilities.RunSort` | src/lib/scanner.ts:182 | a run-detecting sort under a constant comparator gives a permutation: the reversed catalog for a negative value, declaration order otherwise |
| `Vulnerabilities.RunSortSelection` | src/lib/scanner.ts:179-185 | under that sort, a negative comparator value reports the last catalog entry first, and any other value the first entry |
| `Vulnerabilities.EmptySeedRunSort` | src/lib/scanner.ts:179-185 | under that sort, seed 0 reports only the last catalog entry, which is low severity |
| `Vulnerabilities.SelectionCount` | src/lib/scanner.ts:179 | between 1 and 7 findings are reported |
| `Vulnerabilities.Select` | src/lib/scanner.ts:179-185 | exactly `seed % 7 + 1` findings, each the catalog entry at that position of the order the engine gives for the seed's comparator value, all from the catalog, no name repeated |
| `Vulnerabilities.SelectionsNest` | src/lib/scanner.ts:179-185 | for two seeds with the same comparator value, a smaller count selects a prefix of a larger count's selection |
| `Scoring.Count` | src/lib/scanner.ts:54-56 | the empty list counts 0, a one-finding list counts 1 iff its severity matches, and a count never exceeds the number of findings |
| `Scoring.CountAppend` | src/lib/scanner.ts:54-56 | counting is additive over joined lists; with the one-finding case this fixes every count as the number of findings of that severity |
| `Scoring.CountPositive` | src/lib/scanner.ts:54-56 | a severity's count is positive iff some finding has that severity |
| `Scoring.CountTotal` | src/lib/scanner.ts:54-56 | every finding is counted under exactly one severity: the three counts add up to the number of findings |
| `Scoring.Summarize` | src/lib/scanner.ts:54-56 | the summary's counts add up to the number of findings, and each is positive iff a finding of that severity exists |
| `Scoring.SummarizeAppend` | src/lib/scanner.ts:54-56 | the summary of two joined lists is the component-wise sum of their summaries |
| `Scoring.SummarizeOne` | src/lib/scanner.ts:54-56 | one finding is counted once, under its own severity |
| `Scoring.Score` | src/lib/scanner.ts:59 | the score lies in [0, 100]; it is 100 iff all counts are zero; it is 100 minus the weighted penalty when that penalty is below 100, and 0 otherwise |
| `Scoring.Risk` | src/lib/scanner.ts:62-64 | High iff a high finding exists; Medium iff none high and some medium; Low otherwise |
| `Scoring.ScoreFullIffNoFindings` | src/lib/scanner.ts:54-59 | a list of findings scores 100 iff it is empty |
| `Scoring.ScoreMonotone` | src/lib/scanner.ts:54-59 | one more finding never raises the score, and lowers any positive score |
| `Scoring.RiskIsWorstSeverity` | src/lib/scanner.ts:54-64 | the risk level is the most severe severity among the findings, with Low for none |
| `Scoring.RiskBoundsScore` | src/lib/scanner.ts:54-64 | with at most seven findings, Low risk means a score of at least 86 and High risk a score of at most 85 |
| `Scoring.SingleLowFinding` | src/lib/scanner.ts:54-64 | one low-severity finding gives the summary (0, 0, 1), score 98 and low risk |
| `Scoring.TwoHighOneMedium` | src/lib/scanner.ts:54-64 | two high findings and one medium finding give the summary (2, 1, 0), score 63 and high risk |
| `Recommendations.Generic` | src/lib/scanner.ts:277-281 | the fallback's title is "Fix " + name, it has no code, and it cites only the OWASP Top 10 |
| `Recommendations.ForVulnerability` | src/lib/scanner.ts:270-282 | a tabled name gets its table entry, and any other name gets exactly the generic recommendation ("Fix " + name, the description, no code, the OWASP resource) |
| `Recommendations.Recommend` | src/lib/scanner.ts:270-301 | one recommendation per finding, in order; the two fillers are appended, in order, iff there are fewer than three; at least three iff there is at least one finding |
| `Recommendations.TableCoversFirstFive` | src/lib/scanner.ts:89-267 | of the catalog, exactly the first five names have a table entry |
| `TechProfile.Technologies` | src/lib/scanner.ts:341-346 | `3 + seed % 5` picks (3 to 7), pick i being the pool entry at `seed·(i+1) mod 28`; repeats are possible |
| `TechProfile.ServerType` | src/lib/scanner.ts:349-353 | "Nginx" iff picked; otherwise "Apache" iff picked; otherwise "Microsoft-IIS" |
| `TechProfile.ServerVersion` | src/lib/scanner.ts:354 | the minor version is `seed % 10` and the major is the minor plus one, in 1..10 |
| `TechProfile.MakeHeaders` | src/lib/scanner.ts:356-366 | the `Server:` line names the server type of the picked technologies and the seed's version; the CSP line is present iff `seed % 5 == 0`, and then it is the fixed policy; the date is the given one |
| `TechProfile.Ports` | src/lib/scanner.ts:383-392 | `2 + seed % 4` ports (2 to 5); 80/HTTP then 443/HTTPS first; later ones come from catalog positions 2..9 and are never 80 or 443 |
| `TechProfile.IpOctets` | src/lib/scanner.ts:395 | the octets are `192 + seed % 32`, `168 + seed % 32`, `seed % 256` and `1 + seed % 254`, so they lie in [192,223], [168,199], [0,255], [1,254] |
| `TechProfile.SecondLabel` | src/lib/scanner.ts:405-406 | `domain.split(".")[1]` is undefined iff the host has no dot, and otherwise contains no dot |
| `TechProfile.SecondLabelOfDotted` | src/lib/scanner.ts:405-406 | for a host `a.b…`, the label is `b` iff nothing but a dot or the end follows `b` |
| `TechProfile.LabelText` | src/lib/scanner.ts:405-406 | a template literal renders a present label as itself and `undefined` as "undefined" |
| `TechProfile.DotlessHostNameServers` | src/lib/scanner.ts:405-406 | a host without a dot gets the name servers "ns1.undefined.com" and "ns2.undefined.com" |
| `TechProfile.MakeDns` | src/lib/scanner.ts:394-407 | the DNS block's address is the octets, MX hosts `mail.`/`mail2.` with priorities 10 and 20, name servers `ns1.`/`ns2.` + label + `.com`, TTL 3600 |
| `TechProfile.Synthesize` | src/lib/scanner.ts:304-415 | the technologies are those of the seed; the header block is the seed's, naming the server type of those technologies (Nginx iff picked) and the seed's version, with CSP iff `seed % 5 == 0`; the ports are the seed's `2 + seed % 4`, starting 80, 443; the DNS block is the seed's for the host, TTL 3600 |
| `TechProfile.ProfileOfSeedZero` | src/lib/scanner.ts:341-396 | seed 0 yields three "Apache", an Apache/1.0 server, a CSP line, two ports and address 192.168.0.1 |
| `Scanner.ScanDuration` | src/lib/scanner.ts:67 | the duration lies in 15..44 seconds |
| `Scanner.Report` | src/lib/scanner.ts:40-84 | the report keeps url and date; its findings are the selection for the host's seed, 1–7 distinct catalog entries in the order the engine's sort gives for the seed's comparator value; the summary counts those findings by severity, and score and risk are computed from it (score in [0, 100)); the recommendations are those of the findings, at least three; the technical details are the seed's profile of the host |
| `Scanner.Deterministic` | src/lib/scanner.ts:40-84 | for the same host, sort engine and header date, two reports differ only in scan date and duration |
| `Scanner.EmptyHostFindings` | src/lib/scanner.ts:40-84 | an empty host name has seed 0: one finding, three recommendations |
| `Scanner.EmptyHostProfile` | src/lib/scanner.ts:40-84 | an empty host name gets the seed-0 technical profile |
| `Scanner.EmptyHostUnderRunSort` | src/lib/scanner.ts:40-84 | under the run-detecting sort, an empty host is reported with the single HSTS finding, summary (0, 0, 1), score 98 and low risk |
| `Chatbot.KnowledgeBaseKeys` | src/lib/chatbot.ts:13-85 | the knowledge base's keys are the eight topics, in declaration order |
| `Chatbot.ResponsesNonEmpty` | src/lib/chatbot.ts:13-85 | the knowledge base has eight topics, each with three responses |
| `Chatbot.FirstMatch` | src/lib/chatbot.ts:92-106 | a scan in declaration order returns the first accepted topic, or none if no topic is accepted |
| `Chatbot.BestMatch` | src/lib/chatbot.ts:88-109 | the result is a key; it is present iff the lower-cased query contains some key or related keyword; the first contained key wins; failing that, the first topic with a contained related keyword |
| `Chatbot.FindBestMatch` | src/lib/chatbot.ts:88-109 | on the fixed table the result is one of its keys, and a match exists iff the lower-cased query mentions some topic's key or related keyword |
| `Chatbot.MatchReadsKeywordsOnly` | src/lib/chatbot.ts:88-109 | matching depends only on the topics' keys and related keywords, in order |
| `Chatbot.FindBestMatchReadsKeywords` | src/lib/chatbot.ts:88-109 | matching on the knowledge base is matching on its keyword part |
| `Chatbot.DirectPassDecides` | src/lib/chatbot.ts:92-96 | the first topic whose key occurs in the query is the match |
| `Chatbot.RelatedPassDecides` | src/lib/chatbot.ts:99-106 | when no key occurs, the first topic with an occurring related keyword is the match |
| `Chatbot.KeyBeatsEarlierRelated` | src/lib/chatbot.ts:92-106 | "darkweb bug bounty" matches "darkweb", not the earlier topic that lists "bug bounty" |
| `Chatbot.BugBountyRelatesToFirstTopic` | src/lib/chatbot.ts:14-22 | "bug bounty", a related keyword of "ethical hacking", occurs in "darkweb bug bounty" |
| `Chatbot.PhishingResolvesToBasics` | src/lib/chatbot.ts:99-106 | "phishing" matches "cybersecurity basics", not the later "social engineering" |
| `Chatbot.ResponseIndex` | src/lib/chatbot.ts:119 | `floor(draw · n)` is a valid index for n responses |
| `Chatbot.Respond` | src/lib/chatbot.ts:112-131 | no match gives the default message and four default topics; a match gives one of the matched topic's responses with its related keywords |
| `Chatbot.GenerateResponse` | src/lib/chatbot.ts:112-131 | the same, on the fixed knowledge base |
| `Chatbot.CreateNewChat` | src/lib/chatbot.ts:135-141 | a new chat holds exactly the bot's greeting |
| `Chatbot.AddMessage` | src/lib/chatbot.ts:144-157 | adding a message grows the history by one, keeps the old history as a prefix, and appends the given role and content |
| `Chatbot.AddAllAppends` | src/lib/chatbot.ts:144-157 | adding messages one after another is concatenation |
| `Chatbot.ConversationStartsWithGreeting` | src/lib/chatbot.ts:135-157 | however a chat continues, its first message is the greeting |
| `Forms.MatchesEmailPattern` | src/pages/LoginPage.tsx:43 | `/\S+@\S+\.\S+/.test` finds a span anywhere in the string; a matching string has at least five characters and an '@' with a character before it and three after it |
| `Forms.EmailPatternShortest` | src/pages/LoginPage.tsx:43 | the email pattern matches iff some '@' has a non-space character before it and a '.' at least two characters after it, with no white space in between and one non-space character after the '.' |
| `Forms.EmailPatternUnanchored` | src/pages/RegisterPage.tsx:44 | text around a matching string never stops the pattern matching |
| `Forms.ShortAddressMatches` | src/pages/LoginPage.tsx:43 | "a@b.c" matches the email pattern |
| `Forms.NoDotNoMatch` | src/pages/LoginPage.tsx:43 | a string without '.' never matches |
| `LoginForm.Submit` | src/pages/LoginPage.tsx:32-50 | either field blank gives "Please fill in all fields"; otherwise a pattern failure gives the email message; `login` is called, with the untrimmed fields, iff both checks pass |
| `RegisterForm.Submit` | src/pages/RegisterPage.tsx:33-63 | the first failing check (any field blank, email pattern, fewer than 6 UTF-16 units, mismatch) decides the one message; `register` is called, untrimmed, iff all four pass |
| `RegisterForm.RegisteredCanLogIn` | src/pages/RegisterPage.tsx:33-63 | whatever the register form submits, the login form submits with the same call |
| `RegisterForm.LoginLacksLengthRule` | src/pages/LoginPage.tsx:32-50 | a one-character password passes the login form but not the register form |
| `RegisterForm.AstralCharactersCountTwice` | src/pages/RegisterPage.tsx:50 | three characters outside the basic plane already meet the six-unit minimum |
| `ScanForm.HasHttpScheme` | src/pages/ScannerPage.tsx:40 | a string passing `/^https?:\/\//i` has at least seven characters and starts with "http" in some letter case |
| `ScanForm.SchemeIgnoresRest` | src/pages/ScannerPage.tsx:40 | the pattern is anchored only at the start: text after a scheme never stops it matching |
| `ScanForm.SchemeIgnoresCase` | src/pages/ScannerPage.tsx:40 | a string passes the scheme test iff its lower-case form does |
| `ScanForm.WithScheme` | src/pages/ScannerPage.tsx:39-43 | the result carries an http(s) scheme in any letter case; the input is kept if it had one, and otherwise gets "https://" in front; the input is always its suffix |
| `ScanForm.WithSchemeIdempotent` | src/pages/ScannerPage.tsx:39-43 | adding the scheme twice is adding it once |
| `ScanForm.Submit` | src/pages/ScannerPage.tsx:28-55 | a blank url gives "Please enter a URL to scan" and leaves the field alone; otherwise the field holds the schemed url, an unparsable one gives "Please enter a valid URL", and the scan starts iff it parses, with the schemed url |
| `ScanForm.SchemedNotBlank` | src/pages/ScannerPage.tsx:33-43 | a url with a scheme is never blank |
| `ScanForm.ResubmitIsStable` | src/pages/ScannerPage.tsx:28-55 | submitting the field's new content again gives the same field and outcome |
| `ScanForm.UpperCaseSchemeKept` | src/pages/ScannerPage.tsx:40 | "HTTP://example.com" is kept as it is |
| `ScanForm.OtherSchemePrefixed` | src/pages/ScannerPage.tsx:40-41 | "ftp://example.com" becomes "https://ftp://example.com" |

## Left out

- The 3.5-second delay before a report (src/lib/scanner.ts:45) is timing only.
- `new Date()` values are string parameters: the report date and the `Date:` header line. The chat messages' timestamps, also `new Date()`, are not modelled at all.
- `Math.random()` is a parameter in two places: the scan duration and the chatbot's response index.
- The engine's sorting algorithm is the `sortWith` parameter. The comparator's value is modelled and is what `sortWith` is applied to; `Vulnerabilities.RunSort` is one engine's behaviour, and no report depends on it.
- `new URL(url).hostname` is the `host` parameter, and `new URL(...)`'s acceptance is the `parses` parameter: the URL parser is not part of this model.
- The headers and DNS blocks are structured records, not their exact text. The fixed header lines and the line layout are not modelled.
- `Text.Lower`: lower-cases ASCII letters only; `toLowerCase` also maps other characters, some of them onto ASCII letters. For example, it maps the Kelvin sign U+212A to 'k', so the source matches "DAR\u212AWEB" to "darkweb" while `Chatbot.FindBestMatch` finds no match. The scheme test is exact: without the `u` flag, the `i` flag folds only ASCII letters onto "http".
- `recommendationMap[vuln.name]` would also find inherited object keys such as "constructor". Every name comes from the catalog, so this never happens, and the table is a `map`.
- The chatbot looks up the matched topic by key. Keys are distinct, so the first topic with that key is that topic.
- The stores, the backend client, the pages' rendering and effects, and the scanner store's own URL handling are left out: they are state, I/O and presentation.
- `TechProfile.Technologies`: `Math.abs` of the index is dropped, because the seed is never negative.
- `TechProfile.Ports`: `Math.abs` of the index is dropped for the same reason.
