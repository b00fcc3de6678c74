# Attestor promotion and provider model

A Dafny model of the parts of Attestor that decide: whether a language-model call may leave, whether a
release may be promoted, and whether the evidence for it is what it claims to be. `dafny verify dfyconfig.toml`
checks the whole project.

The modules follow the program:

- `Tar`: the hand-written ustar archive of the promotion bundle, with a strict reader as its counterpart. The
  layout is the "ustar Interchange Format" section of the POSIX `pax` utility (IEEE Std 1003.1).
- `JsonText`, `JsonGrammar`, `JsonCanonical`, `JsonOrder`, `JsonExtraction`, `JsonVerbatim`: JSON text on UTF-16 code
  units and its grammar (RFC 8259), the canonical form behind the digests (key order as in section 3.2.3 of RFC 8785,
  array indices aside), the extraction of JSON from model output, and all of it down to the code units.
- `AlertRouting`, `AlertLayout`, `AlertStrays`, `AlertText`, `AlertRenderer`, `AlertEndToEnd`, `AlertVerbatim`: the
  Alertmanager parser and router, the layout it expects and what it makes of lines before it, the real renderer, the
  two together, line breaks inside settings included, and the rendered text word for word.
- `ProviderRouting`: provider selection, failover and evidence.
- `AnthropicPolicy`, `AnthropicRetry`: runtime policy, live-smoke proof, delays (Retry-After in its
  delay-seconds form, section 10.2.3 of RFC 9110) and the retry loop.
- `PathBoundary`, `FileTree`, `DemoPaths`, `ArtifactBundle`, `ArtifactCopy`: path containment, a file system with
  symbolic links, and the collection and copying of artifacts.
- `BundleArchive`: the copied bundle as a tar archive.
- `PromotionCandidate`, `GoNoGoPacket`, `PromotionChain`: the packager's verdict, the go/no-go gates, and the two
  together with the readiness tree.
- `HaReadiness`, `ProductionReadiness`: the readiness tree from environment checks to the production packet.
- `StripeBootstrap`: cursor paging and find-or-create on a remote store.
- `RehearsalChain`, `TemporaryEnv`: the rehearsal steps 05 to 09 as histories over stored summaries.
- `Wrappers`, `Text`: options, results, bytes and JavaScript string operations.

The network, clocks, jitter, spawned programs, SHA-256, `Number`, `Date.parse`, URL parsing and single-value
format tests are functions or flags given from outside; `AnthropicPolicy.Lawful` is what is taken for granted of
those that need it.

Where the code and what is said of it differ, the model follows the code:

- The retry delay cap falls back to 8000 even below a larger configured initial delay
  (`AnthropicPolicy.InitialAboveMax`).
- The built-in client drops response headers, so Retry-After is never honoured, and turns a timeout into an
  error that is not retried (`AnthropicRetry.FetchRun`).
- The operator runbook says that step 09 assumes steps 05 to 08 passed for the same target; the drivers look only
  at whether the stored summaries passed (`RehearsalChain.StaleRehearsalPasses`), and when that is enough is said
  exactly (`RehearsalChain.OneRehearsalMeansDated`).
- Alert settings are written unescaped into single lines, line breaks included
  (`AlertEndToEnd.StrayReceiversLoseRoutes`, `AlertEndToEnd.StrayRouteDoublesRoutes`).
- The readiness packet is read from wherever the manifest says, and its item is skipped by the boundary where the
  packaging command names it (`PromotionCandidate.GoOutsideRootsMeans`) or replaced where another id takes its key
  (`PromotionCandidate.ShadowedPacketUnchecked`).
- Failovers are looked up again by id, and the first of that id answers (`ProviderRouting.GuaranteeExact`).
- The blocker `required-artifacts-missing` is raised for optional artifacts too (`GoNoGoPacket.EvidenceGateOfGo`).
- The allowed roots are compared after resolving links, the reference before (`ArtifactBundle.LinkedWorkspaceDeniesAll`).

## Model

| member | source | states |
|---|---|---|
| Text.SpaceMeans | src/api/anthropic-helpers.ts:30-41 | the code points that `trim` takes for white space |
| Text.TrimMeans | src/api/anthropic-helpers.ts:30-41 | trimming takes white space off both ends, all of it and nothing else |
| Text.LowerMeans | src/api/anthropic-helpers.ts:30-33 | lower-casing changes the 26 letters and the Kelvin sign, place by place |
| Text.StartsWithMeans | scripts/ops/package-production-promotion-candidate.ts:116-120 | a text starts with a prefix if and only if it is the prefix and something |
| Text.ContainsMeans | scripts/ops/package-production-promotion-candidate.ts:273-283 | a text includes a part if and only if the part stands somewhere in it |
| Tar.TarHeader | scripts/ops/package-production-promotion-candidate.ts:507-526 | a name of more than 100 bytes is refused; otherwise the buffer, written in place and summed in a loop, ends as the 512 bytes of a ustar header for that name and size |
| Tar.CreateTar | scripts/ops/package-production-promotion-candidate.ts:528-540 | the chunks make up the archive of exactly the listed files, in order; it fails exactly when some name is too long, and names such a file |
| Tar.OctalRoundTrip | scripts/ops/package-production-promotion-candidate.ts:516-516 | the octal digits of a number read back as that number |
| Tar.OctalLength | scripts/ops/package-production-promotion-candidate.ts:516-516 | a number needs at most k octal digits exactly when it is below 8^k |
| Tar.ChecksumFits | scripts/ops/package-production-promotion-candidate.ts:522-524 | any 512 bytes sum to at most 130560, so the six-digit checksum field never overflows |
| Tar.HeaderSelfCheck | scripts/ops/package-production-promotion-candidate.ts:507-526 | for every name and size, re-summing the finished header with its checksum field read as blanks gives the value stored there |
| Tar.HeaderBytes | scripts/ops/package-production-promotion-candidate.ts:507-526 | every byte of a header by its place and value, the size and checksum digits aside, which other rows give |
| Tar.SizeFieldReads | scripts/ops/package-production-promotion-candidate.ts:516-516 | a strict reader gets the size back exactly when it is below 8^11, and otherwise refuses the field |
| Tar.ArchiveMeans | scripts/ops/package-production-promotion-candidate.ts:528-540 | the bytes of every archive: for each file its header, its body and less than a block of zeros to the next block, and two blocks of zeros at the end |
| Tar.EntryReads | scripts/ops/package-production-promotion-candidate.ts:531-537 | one entry is a whole number of blocks, and a reader placed before it takes exactly its name up to a NUL and its body, and goes on at what follows |
| Tar.EntriesRead | scripts/ops/package-production-promotion-candidate.ts:528-540 | the same for a whole list of entries, whatever follows them |
| Tar.TarRoundTrip | scripts/ops/package-production-promotion-candidate.ts:507-540 | for every list the writer accepts, a strict ustar reader gives back the same names and bodies in order, and stops at the end marker with nothing left, if and only if no name holds a NUL and no body reaches 8^11 bytes |
| JsonText.ReadQuoted | src/api/anthropic-helpers.ts:71-73 | a string printed with its escapes reads back as itself, whatever follows it |
| JsonText.ReadPrinted | src/api/anthropic-helpers.ts:71-73 | the printed text of a value reads back as the value and leaves whatever follows |
| JsonText.ParsePrint | src/api/anthropic-helpers.ts:71-73 | parsing the printed text of any value gives the value |
| JsonText.PrintInjective | src/api/anthropic-helpers.ts:71-73 | two values with the same printed text are equal, member order included |
| JsonGrammar.ParseMeans | src/api/openai-json-extraction.ts:8-8 | for every text and value: the reader accepts the text as that value if and only if the grammar of RFC 8259 spells it so, gaps, escapes and repeated keys included |
| JsonGrammar.LettersMean | src/api/openai-json-extraction.ts:8-8 | the letters that may follow a backslash in a string, and the unit each stands for |
| JsonGrammar.DigitMeans | src/api/openai-json-extraction.ts:8-8 | the digits of a unicode escape, of either case, and their values |
| JsonGrammar.BlankMeans | src/api/openai-json-extraction.ts:8-8 | the four units that may stand between tokens |
| JsonGrammar.PutMeans | src/api/anthropic-helpers.ts:79-82 | one more member is listed under its key with its value alone, every other member stays, and own-key order is kept |
| JsonGrammar.ParsedIsJs | src/api/openai-json-extraction.ts:8-8 | whatever is parsed lists own keys in order and once, so it prints and parses again as itself |
| JsonVerbatim.EscapedMeans | src/api/anthropic-helpers.ts:71-73 | how every string is written, unit by unit: seven short escapes, four lower-case digits for other control characters and lone surrogates, everything else as it is |
| JsonVerbatim.NumberMeans | src/api/openai-json-extraction.ts:8-8 | the lexemes taken for numbers are exactly those of the grammar in section 6 of RFC 8259 |
| JsonVerbatim.PrintedList | src/api/anthropic-helpers.ts:71-73 | the code units of a list of literals: brackets, commas and words without a blank |
| JsonVerbatim.Punctuation | src/api/anthropic-helpers.ts:71-73 | the signs and words of JSON text and of a fence, as code units |
| JsonCanonical.SortJsonMeans | src/api/anthropic-helpers.ts:75-84 | sorting gives the canonical order at every depth and keeps the meaning, except that members named `__proto__` are lost |
| JsonCanonical.CanonicalUnique | src/api/anthropic-helpers.ts:75-84 | two canonically ordered values with the same meaning are the same value |
| JsonCanonical.StableJsonCanonical | src/api/anthropic-helpers.ts:71-84 | for all values, equal stable texts if and only if equal meanings up to key order and `__proto__` members |
| JsonCanonical.StableJsonIdentifies | src/api/anthropic-helpers.ts:71-84 | without `__proto__` keys, equal stable texts if and only if the values are equal up to key order at every depth, array-index keys included |
| JsonCanonical.ProtoCollision | src/api/anthropic-helpers.ts:75-84 | counterexample: an object with a `__proto__` member and an empty one have the same stable text |
| JsonVerbatim.ProtoKey | src/api/anthropic-helpers.ts:79-82 | the key that is lost, by its code units |
| JsonCanonical.SortJsonIdempotent | src/api/anthropic-helpers.ts:75-84 | sorting twice is sorting once |
| JsonOrder.LessMeans | src/api/anthropic-helpers.ts:78-78 | one key sorts before another if and only if it is a proper prefix or has the smaller code unit where they first differ |
| JsonOrder.IndexMeans | src/api/anthropic-helpers.ts:79-82 | the keys that go first are exactly the decimal texts of the numbers from 0 to 2^32 - 2 |
| JsonOrder.SortedKeys | src/api/anthropic-helpers.ts:75-84 | of two listed keys of any sorted object: indices come first and ascend by number, the others ascend by code unit; the keys are those of the object without `__proto__`, each once |
| JsonOrder.StableExample | src/api/anthropic-helpers.ts:71-84 | the stable text of an object with members b and a, as code units: a comes first |
| JsonExtraction.ScanForClose | src/api/openai-json-extraction.ts:32-45 | the scan loop stops at the first place where the brace depth returns to zero, or reports that there is none |
| JsonExtraction.DepthPositive | src/api/openai-json-extraction.ts:32-45 | before the place where the scan stops, every prefix has depth at least one |
| JsonExtraction.ExtractJson | src/api/openai-json-extraction.ts:6-57 | the nested fallbacks compute the extraction that the theorems below are about: whole text, fence, from the first bracket, up to the closing brace |
| JsonExtraction.SliceParses | src/api/openai-json-extraction.ts:46-51 | of all slices that start at a printed object and end at a brace, exactly the one that ends at its own last brace parses to it |
| JsonExtraction.ExtractObject | src/api/openai-json-extraction.ts:6-57 | an object in prose without a fence is returned if and only if only blanks follow it or the scan stops at its own last brace |
| JsonExtraction.ExtractBraceFree | src/api/openai-json-extraction.ts:6-57 | an object whose strings hold no brace is returned, whatever prose surrounds it |
| JsonExtraction.BraceInString | src/api/openai-json-extraction.ts:32-51 | counterexample: a brace inside a string, followed by other text, loses the object |
| JsonExtraction.ExtractFenced | src/api/openai-json-extraction.ts:10-21 | a value in a tagged code fence, with no other fence before it, is returned if and only if its own text holds no three backticks and no backtick touches the fence from before |
| JsonVerbatim.FenceBodyMeans | src/api/openai-json-extraction.ts:10-10 | a text has a fence with this body if and only if the pattern matches so, with the earliest ticks, the longest tag and white space and the shortest body; and no fence exactly if it matches nowhere |
| JsonVerbatim.SpaceSame | src/api/openai-json-extraction.ts:10-10 | white space in a fence is that of `trim` |
| JsonVerbatim.ExtractedMeans | src/api/openai-json-extraction.ts:6-57 | for every text and value: extracted if and only if the whole text spells it, or else the body of the fence, or else, without a fence, what stands from the first bracket on or its shortest piece with as many closing as opening braces; and a malformed fence exactly if its body spells nothing |
| AlertRouting.ReadBlock | scripts/probe/probe-alert-routing.ts:108-134 | the inner loop reads exactly the lines of one route block and leaves the rewritten index at its last line |
| AlertRouting.ReadRoutes | scripts/probe/probe-alert-routing.ts:104-140 | although the block loop moves the outer index, every block is read once and in order |
| AlertRouting.ReadReceiver | scripts/probe/probe-alert-routing.ts:148-167 | the inner loop reads exactly one receiver and leaves the rewritten index at its last line |
| AlertRouting.ReadReceivers | scripts/probe/probe-alert-routing.ts:145-170 | every receiver is read once and in order |
| AlertRouting.ParseConfig | scripts/probe/probe-alert-routing.ts:85-176 | the nested loops compute the configuration that the line-by-line specification gives |
| AlertRouting.EvaluateRoutes | scripts/probe/probe-alert-routing.ts:182-192 | the receivers of the matching routes up to and including the first that does not continue, or exactly the root receiver; never an empty list |
| AlertRouting.TargetsMean | scripts/probe/probe-alert-routing.ts:178-192 | routing from the first route on, in labels and matchers: a route that does not fit is passed over, one that fits takes the alert, and hands it on only if it continues and a later one fits; no fit leaves the root |
| AlertVerbatim.MatcherMeans | scripts/probe/probe-alert-routing.ts:79-83 | a line is a matcher if and only if it has the shape of the regular expression, and then for that name and value |
| AlertLayout.LayoutRoundTrip | scripts/probe/probe-alert-routing.ts:79-176 | for every root receiver, route list and receiver list, parsing their layout gives exactly the same structure |
| AlertText.SplitText | scripts/probe/probe-alert-routing.ts:90-90 | splitting a rendered text gives the pieces of its lines, whatever line breaks the lines themselves hold |
| AlertVerbatim.SplitExample | scripts/probe/probe-alert-routing.ts:90-90 | one carriage return before a line feed is dropped, a second one kept, and there is always a last line |
| AlertVerbatim.TextExample | scripts/render/render-alertmanager-config.mjs:217-218 | every rendered line ends in one line feed |
| AlertVerbatim.RenderedVerbatim | scripts/render/render-alertmanager-config.mjs:88-218 | for every environment, the rendered lines are this list, word for word and in order |
| AlertVerbatim.YamlRoundTrip | scripts/render/render-alertmanager-config.mjs:4-6 | a quoted setting reads back as the setting by the rule for single-quoted scalars in section 7.3.2 of YAML 1.2 |
| AlertVerbatim.AcceptedMeans | scripts/render/render-alertmanager-config.mjs:58-86 | a text is rendered, and then that one, if and only if pairs are whole, mail has its host and addressee, and in production each receiver has a target |
| AlertStrays.BehindStrays | scripts/probe/probe-alert-routing.ts:95-176 | whatever lines stand before the layout the parser expects, the parser makes of them what `Strays` says, sections and blocks running on into the layout, and of the layout what it means |
| AlertEndToEnd.ParsedBehindSettings | scripts/render/render-alertmanager-config.mjs:40-218 | for every environment, line breaks in settings included: the parser reads what the lines of the mail settings make of themselves, and then the layout the renderer means, or receivers only, if the settings have opened them |
| AlertEndToEnd.RenderedTextParses | scripts/render/render-alertmanager-config.mjs:40-218 | unless a line `route:` of a mail setting has a line `  routes:` after it in the mail settings, the text parses; its routes are the five fixed ones read `Copies` times, once for each line `route:` of a mail setting before any `receivers:`, and once as meant unless there is such a line; everything is as meant if and only if the routes are read once, no setting opens a receiver and none adds a kind of delivery |
| AlertEndToEnd.RoutingOfRendered | scripts/probe/probe-alert-routing.ts:194-244 | for the same environments, every scenario of the probe reaches exactly the receivers it expects in the parsed text if and only if the routes are read exactly once |
| AlertEndToEnd.RoutingBehindSettings | scripts/probe/probe-alert-routing.ts:194-244 | for every environment, whatever sections its mail settings open: the text parses if and only if their route blocks do; in front of the fixed routes, routing is valid if and only if their routes let the alert of each scenario by or send it on right; where they open the receivers too, if and only if their routes alone do |
| AlertEndToEnd.CoverageByLastReceiver | scripts/probe/probe-alert-routing.ts:246-325 | where the routes are read once, delivery coverage is valid if and only if the last receiver found of each of the names default, critical and warning has a kind of delivery, receivers that settings open included |
| AlertEndToEnd.CoverageOfRendered | scripts/probe/probe-alert-routing.ts:246-325 | and where no setting opens a receiver: if and only if the split lines of these three receivers each hold a kind of delivery, which a configured target always adds |
| AlertEndToEnd.ProbeOfRendered | scripts/probe/probe-alert-routing.ts:246-325 | end to end: for every environment the renderer accepts and whose settings do not pass for structure, routing is valid, and delivery coverage is valid if and only if the default, critical and warning receivers each have a target |
| AlertEndToEnd.OneLineTame | scripts/render/render-alertmanager-config.mjs:40-218 | settings without line breaks never pass for structure |
| AlertEndToEnd.StrayReceiversLoseRoutes | scripts/render/render-alertmanager-config.mjs:40-100 | counterexample: a smarthost that holds a line break and a line `receivers:` is accepted and covered, and every route is lost |
| AlertEndToEnd.StrayRouteDoublesRoutes | scripts/render/render-alertmanager-config.mjs:40-100 | counterexample: with a line `route:` instead, the parser reads ten routes and the routing is invalid |
| AlertEndToEnd.StraySectionMayBeHarmless | scripts/probe/probe-alert-routing.ts:98-142 | a smarthost that opens and closes a route section of its own is accepted and leaves the routing valid, so such sections are judged by their routes and not by their lines |
| AlertEndToEnd.StrayNameLosesDelivery | scripts/probe/probe-alert-routing.ts:145-170 | counterexample: a default webhook that holds the line opening a second default receiver is accepted and covered, routing is valid, and the default receiver that counts delivers nowhere |
| AlertEndToEnd.EmailOnlyUncovered | scripts/render/render-alertmanager-config.mjs:69-84 | counterexample: with e-mail as the only target in production mode the renderer succeeds, and the default receiver that the probe parses has no delivery kind, so coverage is invalid |
| ProviderRouting.FailoverSymmetry | src/api/llm-provider-registry.ts:293-336 | with distinct ids, pinning a selected request to one of its failovers is selected too and lists the original provider among its failovers |
| ProviderRouting.RouteBlockersGrow | src/api/llm-provider-registry.ts:454-556 | turning on any requirement never removes a blocker of a route |
| ProviderRouting.EvidenceSound | src/api/llm-provider-registry.ts:558-631 | in production, evidence raises no blocker if and only if it is present, matches provider, purpose and model, is valid, and carries every required digest well formed |
| ProviderRouting.EvidenceBlockersGrow | src/api/llm-provider-registry.ts:558-631 | requiring more of the same evidence never removes one of its blockers |
| ProviderRouting.EvaluateReadiness | src/api/llm-provider-registry.ts:338-413 | the state follows the blockers and the production flag; blockers and evidence ids collected by the loop are those of route, primary evidence and every failover |
| ProviderRouting.SelectedMeans | src/api/llm-provider-registry.ts:293-297 | the provider asked is the first of the pinned id or, without one, the first wired one with a model for the purpose |
| ProviderRouting.RouteMeans | src/api/llm-provider-registry.ts:293-336 | for every request, over its own fields: selected if and only if the provider is wired, has the model, has tool calling, vision or text generation as the purpose needs, a structured mode where asked for, rate-limit signals where failover or production is required, and another such provider where failover is; the failovers are exactly the others that serve |
| ProviderRouting.RouteBlockersMean | src/api/llm-provider-registry.ts:454-556 | each blocker of a route is there exactly for its own reason, said over the request and the registry, and they come in order |
| ProviderRouting.EvidenceBlockersMean | src/api/llm-provider-registry.ts:558-642 | each issue of a piece of evidence is raised exactly for its own reason, the rate-limit, output-schema and tool-schema digests by the request's own fields |
| ProviderRouting.EvidenceBlockersRanked | src/api/llm-provider-registry.ts:558-642 | and they come in a fixed order |
| ProviderRouting.ReadinessMeans | src/api/llm-provider-registry.ts:338-413 | where lookups agree, no blocker if and only if the selected provider serves the request, its evidence vouches for it with every digest the request calls for, and where failover is required another serves it and every such one is vouched for |
| ProviderRouting.ReadinessBlockersMean | src/api/llm-provider-registry.ts:338-413 | where lookups agree, exactly which blockers the answer carries |
| ProviderRouting.GuaranteeExact | src/api/llm-provider-registry.ts:338-413 | for every production request over every registry: ready means, whatever the evidence, a wired primary with sound evidence and where failover is required a compatible failover and sound evidence for every one, if and only if the route is blocked anyway or its provider has an id and every compatible failover is found under its own id with its own model |
| ProviderRouting.ProductionReadiness | src/api/llm-provider-registry.ts:338-413 | in particular with distinct ids that are not empty: the filtered live-smoke blocker is re-imposed by the evidence |
| ProviderRouting.ReadyNamesItsEvidence | src/api/llm-provider-registry.ts:348-389 | a ready production answer names as evidence exactly its primary and, where required, its failovers |
| ProviderRouting.DuplicateIdSkipsEvidence | src/api/llm-provider-registry.ts:364-389 | counterexample: with a repeated id the lookup meets the wrong provider and skips the evidence check |
| ProviderRouting.ReadinessGrows | src/api/llm-provider-registry.ts:338-413 | requiring more never removes a readiness blocker while no compatible failover is lost by it |
| ProviderRouting.ReadinessGrowsUnlessStructured | src/api/llm-provider-registry.ts:338-413 | requiring production or failover never removes a readiness blocker |
| ProviderRouting.StructuredOutputMonotone | src/api/llm-provider-registry.ts:496-522 | under failover, requiring structured output is monotone for all evidence if and only if every compatible failover can produce it |
| AnthropicPolicy.ReadBoundedInteger | src/api/anthropic-helpers.ts:52-69 | a missing value gives the default; one that is no integer within the bounds gives the default and one blocker on the shared list; any other gives itself |
| AnthropicPolicy.CheckIdentity | src/api/anthropic.ts:273-288 | digest, time, model and purpose each add the one blocker their value calls for to the shared list, in order |
| AnthropicPolicy.CheckFreshness | src/api/anthropic.ts:290-303 | the time adds at most one blocker, and the state is stale exactly for a proof past its age limit |
| AnthropicPolicy.EvaluateSmokeProof | src/api/anthropic.ts:233-318 | the pushed blockers and the updated state are those of the gate that the theorems below are about |
| AnthropicPolicy.ValidMeansAccepted | src/api/anthropic.ts:233-318 | the state is `valid` if and only if no blocker was raised, and if and only if digest, model, purpose and age limit are in order and now lies within the window |
| AnthropicPolicy.ResolvePolicy | src/api/anthropic.ts:126-231 | the policy carries the bounded settings, the granted tokens, the evaluated proof and the accumulated blockers |
| AnthropicPolicy.PolicyBounded | src/api/anthropic.ts:136-181 | for every environment: 1 to 4 attempts, initial delay 100 to 60000, delay cap 100 to 120000, timeout 1000 to 600000, and granted tokens within the configured ones |
| AnthropicPolicy.InitialWithinMax | src/api/anthropic.ts:164-181 | the initial delay is at most the cap if and only if it is at most 8000 or a valid cap is configured |
| AnthropicPolicy.InitialAboveMax | src/api/anthropic.ts:164-181 | counterexample: an initial delay of 60000 with no cap configured is an unblocked policy capped at 8000 |
| AnthropicPolicy.PolicyUnblocked | src/api/anthropic.ts:126-231 | a call is let through if and only if settings and requested tokens are legal and, in a production-like runtime without the override, the gate accepts |
| AnthropicPolicy.UnprovedMeans | src/api/anthropic.ts:115-124 | with no proof configured, legal settings and no override: unblocked if and only if NODE_ENV is not production, the HA switch is not on, the profile is not production-shared, and neither public host name nor base URL is set, each read off the raw environment |
| AnthropicPolicy.NodeEnvAloneBlocks | src/api/anthropic.ts:118-119 | NODE_ENV alone blocks, with exactly the blocker for the missing proof |
| AnthropicPolicy.HaModeAloneBlocks | src/api/anthropic.ts:120-120 | the HA switch alone does |
| AnthropicPolicy.RuntimeProfileAloneBlocks | src/api/anthropic.ts:121-121 | the shared profile alone does |
| AnthropicPolicy.PublicHostnameAloneBlocks | src/api/anthropic.ts:122-122 | a public host name alone does |
| AnthropicPolicy.PublicBaseUrlAloneBlocks | src/api/anthropic.ts:123-123 | a public base URL alone does |
| AnthropicPolicy.PolicyReads | src/api/anthropic.ts:136-181 | the five numbers of every policy with their defaults and limits, and the blocker exactly for a value that is none |
| AnthropicPolicy.TokensGranted | src/api/anthropic.ts:182-192 | the requested tokens are granted exactly where they are a whole number within the budget; else the budget, and the blocker that says why |
| AnthropicPolicy.PolicyBlockersMean | src/api/anthropic.ts:126-231 | all blockers of every policy, in order |
| AnthropicPolicy.ProvedMeans | src/api/anthropic.ts:233-318 | the gate over the raw environment: valid if and only if digest, time, model and purpose are there, well formed and those of the call, and now lies within the window |
| AnthropicPolicy.SmokeBlockersMean | src/api/anthropic.ts:233-318 | what the gate reports, blocker by blocker and in order |
| AnthropicPolicy.SmokeStateMeans | src/api/anthropic.ts:233-318 | which of the four states the gate gives |
| AnthropicPolicy.SmokeRunMeans | src/api/anthropic.ts:484-547 | a smoke run succeeds if and only if its time can be read, the settings are legal with room for 64 tokens and the reply is the expected word; and what its proof names |
| AnthropicPolicy.JoinedText | src/api/anthropic.ts:740-746 | the text of a reply is that of its text blocks, one after the other |
| AnthropicPolicy.ProofShape | src/api/anthropic.ts:484-547 | a successful smoke run yields the given time, a well-formed digest, the configured model and the reasoning purpose |
| AnthropicPolicy.ProofOpensGate | src/api/anthropic.ts:484-547 | producer and gate agree: the four values of a successful run, in any deployment, are `valid` if and only if the purpose is reasoning, the age limit is legal and now lies from five minutes before the run to its age limit; they are `stale` exactly past it |
| AnthropicPolicy.SmokeRunUnblocksReasoning | src/api/anthropic.ts:194-203 | deployed where it was produced, the proof unblocks legal reasoning calls exactly while it is fresh, and always outside production |
| AnthropicRetry.DelayInRange | src/api/anthropic.ts:338-352 | every delay lies between zero and the cap, for any header and any jitter |
| AnthropicRetry.DelayOrder | src/api/anthropic.ts:338-352 | without a usable Retry-After an earlier attempt never waits longer than a later one whatever jitter either draws, and strictly less until the cap binds |
| AnthropicRetry.RunWithRetry | src/api/anthropic.ts:699-738 | the run returns the first success, rethrows the first failure that is not retryable, and else fails after all attempts; it sleeps exactly once between calls, and in total at most (attempts - 1) times the cap |
| AnthropicRetry.RunMeans | src/api/anthropic.ts:338-352 | every run, call by call: it goes on after exactly the failures that are tried again while attempts remain; the k-th wait is what a usable header says, up to the cap, or else one, two or four times the initial delay and the jitter's share of a quarter of it, up to the cap, exact at jitter 0 and 1 |
| AnthropicRetry.RunBudget | src/api/anthropic.ts:699-738 | under every policy the environment can produce: at most 4 calls and at most 360000 ms of sleep |
| AnthropicRetry.RunUnique | src/api/anthropic.ts:699-738 | the description of a run determines its result, its calls and its sleeps |
| AnthropicRetry.FetchRun | src/api/anthropic.ts:432-482 | over the built-in client a run goes on exactly after HTTP 429 or 5xx while attempts remain, and is exhausted exactly when the last answer is one; a status from 200 to 299 returns the body, and anything else ends it at once, a timeout and a missing key without a status; since headers are dropped the waits never shrink |
| AnthropicRetry.CallReasoning | src/api/anthropic.ts:549-581 | a request leaves if and only if the policy is unblocked, so in production only with a fresh matching proof; the result is the text of the last call, or the error it comes to: blank, refused, or out of attempts |
| PathBoundary.InsideOrEqualMeans | scripts/demo/demo-path-boundary.ts:16-19 | holds if and only if the root is a segment prefix of the path and the first remaining segment does not open with two dots and a backslash |
| PathBoundary.InsidePathMeans | scripts/ops/package-production-promotion-candidate.ts:116-120 | holds if and only if the parent is a segment prefix and the first remaining segment does not open with two dots |
| PathBoundary.InsidePathImpliesInsideOrEqual | scripts/ops/package-production-promotion-candidate.ts:116-120 | the packager's test is the stricter of the two |
| PathBoundary.TamePathStaysBelow | scripts/ops/package-production-promotion-candidate.ts:112-114 | a relative text without `..` between slashes of either kind resolves below the directory it starts from |
| PathBoundary.ResolveRelative | scripts/ops/package-production-promotion-candidate.ts:108-120 | resolving the relative path from one directory to another gives that other |
| DemoPaths.ResolveInsideMeans | scripts/demo/demo-path-boundary.ts:21-50 | without the override, a path is handed out if and only if it exists and its real location has an approved root, links resolved, as a segment prefix; what is handed out is its own real path |
| FileTree.RealPathIdempotent | scripts/ops/package-production-promotion-candidate.ts:122-127 | resolving links twice is resolving them once |
| FileTree.ListedResolves | scripts/ops/package-production-promotion-candidate.ts:263-271 | every listed path is there, and unless it is a link it resolves to a regular file of the tree, even below directories reached through links |
| FileTree.LeafListed | scripts/ops/package-production-promotion-candidate.ts:263-271 | every file and every link below a directory is listed |
| FileTree.ListedOnce | scripts/ops/package-production-promotion-candidate.ts:263-271 | no path is listed twice |
| FileTree.OneFileListed | scripts/ops/package-production-promotion-candidate.ts:263-271 | a directory with one file lists that file |
| ArtifactBundle.AcceptedMeans | scripts/ops/package-production-promotion-candidate.ts:129-211 | exactly which references pass: relative, no parent traversal, under an allowed root by segments, and if present neither a link nor really elsewhere |
| ArtifactBundle.AcceptedIsContained | scripts/ops/package-production-promotion-candidate.ts:129-211 | an accepted reference stays below the workspace, and what it denotes really lies under an allowed root |
| ArtifactBundle.DenialMeans | scripts/ops/package-production-promotion-candidate.ts:129-211 | each reason for a denial is given exactly for its own condition, the first that applies |
| ArtifactBundle.ParentTraversalMeans | scripts/ops/package-production-promotion-candidate.ts:112-114 | parent traversal is two dots between slashes of either kind or the ends of the text |
| ArtifactBundle.LinkedWorkspaceDeniesAll | scripts/ops/package-production-promotion-candidate.ts:122-171 | where the resolved allowed roots and the workspace path lie apart, every reference is denied |
| ArtifactBundle.LinkedWorkspaceExample | scripts/ops/package-production-promotion-candidate.ts:122-171 | such a workspace: all three roots present, entered through a link, everything denied |
| ArtifactBundle.CollectReferences | scripts/ops/package-production-promotion-candidate.ts:285-336 | the nested loops leave the map with every write applied in order |
| ArtifactBundle.FinalIdsMean | scripts/ops/package-production-promotion-candidate.ts:273-283 | an id is skipped if and only if a command with the packaging id, or whose text holds the packaging script, names it |
| ArtifactBundle.CollectedMeans | scripts/ops/package-production-promotion-candidate.ts:285-336 | the references collected come from evidence items and commands field by field, one for each id, colon and path, and a command's where both meet |
| ArtifactBundle.LastWriteWins | scripts/ops/package-production-promotion-candidate.ts:299-335 | one reference for each key, and for each key the last one written |
| ArtifactBundle.DigestKept | scripts/ops/package-production-promotion-candidate.ts:307-333 | an expected digest survives if and only if it was the last written under its key among the evidence and no command names the same key |
| ArtifactBundle.SameKey | scripts/ops/package-production-promotion-candidate.ts:309-309 | two artifacts have the same key if and only if they are equal or one id goes on from the other with a colon and the path gives back what the id took |
| ArtifactBundle.KeyCollision | scripts/ops/package-production-promotion-candidate.ts:309-309 | counterexample: two different artifacts with the same key |
| ArtifactCopy.SafeNameConfined | scripts/ops/package-production-promotion-candidate.ts:257-261 | every bundle name is one plain segment of safe characters; the bundle path has at most 106 bytes, and at most 100 exactly when the shortened id and the file name have at most 89 together |
| ArtifactCopy.SafeNameMeans | scripts/ops/package-production-promotion-candidate.ts:257-261 | a bundle name place by place: at most 56 units of the id, a dash and the last segment, others than letters, digits, dot, underscore and dash replaced, and 96 units in all |
| ArtifactCopy.PrintedLeadsBack | scripts/ops/package-production-promotion-candidate.ts:382-382 | where no segment holds a backslash, the path printed for a file leads back to it from the workspace |
| ArtifactCopy.CopyArtifacts | scripts/ops/package-production-promotion-candidate.ts:338-394 | the loops over references and files leave the lists, entry fields and printed paths included, and the bundle as the theorems below describe |
| ArtifactCopy.NothingEscapes | scripts/ops/package-production-promotion-candidate.ts:213-240 | every file copied is a regular file whose real path lies under an allowed root, recorded with its own digest and size |
| ArtifactCopy.Accounting | scripts/ops/package-production-promotion-candidate.ts:351-391 | conservation, as an equality of multisets: each denied or missing reference is recorded once, and each file of a present one exactly once, included or denied; nothing else is recorded |
| ArtifactCopy.ListsMean | scripts/ops/package-production-promotion-candidate.ts:338-394 | nothing denied if and only if every reference and every file of it passes; missing are exactly the accepted references that do not exist; no mismatch if and only if every file of a reference with an expected digest has it |
| ArtifactCopy.EntriesMean | scripts/ops/package-production-promotion-candidate.ts:351-391 | exactly what is recorded as denied, with its reason, and as mismatched, with the digest found, where a digest is expected and not empty |
| ArtifactCopy.IncludedMeans | scripts/ops/package-production-promotion-candidate.ts:371-388 | an entry is listed if and only if it is the record of a file that is listed under a present reference and inside the boundary |
| ArtifactCopy.BundleFaithful | scripts/ops/package-production-promotion-candidate.ts:371-388 | the bundle holds every listed artifact with its digest if and only if all copied files that get the same name have the same digest |
| ArtifactCopy.SameBasenameClashes | scripts/ops/package-production-promotion-candidate.ts:257-261 | two copied files of one reference with the same last segment and different digests break that |
| BundleArchive.ArchiveBundle | scripts/ops/package-production-promotion-candidate.ts:528-540 | the tar writer succeeds on the bundle directory exactly on the names the packager accepts, in whatever order the directory lists them |
| BundleArchive.ArchiveRoundTrip | scripts/ops/package-production-promotion-candidate.ts:507-540 | whatever was copied, the archive reads back as exactly the files of the bundle directory if and only if none reaches 8^11 bytes |
| BundleArchive.ArchiveFaithful | scripts/ops/package-production-promotion-candidate.ts:338-394 | the archive holds every listed artifact with its digest if and only if all copied files that get the same name have the same digest |
| PromotionCandidate.PackageCandidate | scripts/ops/package-production-promotion-candidate.ts:592-690 | collects, copies, reads the packet that the manifest names, checks and decides; it fails exactly when that packet is there but unreadable or a bundle path is too long for the archive |
| PromotionCandidate.GoPacketInsideRoots | scripts/ops/package-production-promotion-candidate.ts:463-495 | a go candidate whose packaging command does not name the packet id, and with no id that goes on from it with a colon, rests on a packet that passed the boundary and really lies under an allowed root |
| PromotionCandidate.FinalPacketUnchecked | scripts/ops/package-production-promotion-candidate.ts:273-307 | where the packaging command names the packet id, moving the packet anywhere changes neither the references nor the summary |
| PromotionCandidate.GoOutsideRootsMeans | scripts/ops/package-production-promotion-candidate.ts:463-495 | exactly when a go survives moving its packet to a path the boundary denies: if and only if the packaging command names the packet id |
| PromotionCandidate.GoOnPacketAnywhere | scripts/ops/package-production-promotion-candidate.ts:463-495 | counterexample family: a manifest that is a go wherever its ready packet lies, absolute paths and parents included |
| PromotionCandidate.GoOutsideRootsNeeds | scripts/ops/package-production-promotion-candidate.ts:463-495 | a go on a packet that the boundary denies happens only if the packaging command names its id or another id has taken its key, and then no reference has its path |
| PromotionCandidate.ShadowedPacketUnchecked | scripts/ops/package-production-promotion-candidate.ts:299-309 | exactly when a manifest whose second item takes the key of the packet is a go: its location is never asked, so an absolute path passes |
| PromotionCandidate.BlockersMean | scripts/ops/package-production-promotion-candidate.ts:396-461 | no blocker if and only if the manifest is sound and asks for neither pending nor no-go, nothing is denied, missing though required, or mismatched, the packet is ready and a key is there |
| PromotionCandidate.ChecksMean | scripts/ops/package-production-promotion-candidate.ts:396-461 | the twelve checks in order, each with its condition on the manifest, the copied files, the packet and the key |
| PromotionCandidate.SummaryMeans | scripts/ops/package-production-promotion-candidate.ts:620-690 | the blockers are exactly the failed checks and a recorded no-go; the verdict follows; the two counts are those of the evidence that is needed |
| PromotionCandidate.PacketPathMeans | scripts/ops/package-production-promotion-candidate.ts:463-468 | the packet is read from the path of the first item with its id |
| PromotionCandidate.GoMeansNoBlockers | scripts/ops/package-production-promotion-candidate.ts:651-658 | for the three verdicts a manifest may carry, go if and only if there is no blocker |
| PromotionCandidate.UnknownVerdictNamesNoBlocker | scripts/ops/package-production-promotion-candidate.ts:651-658 | counterexample family: any other verdict text turns a go into a no-go without a blocker |
| PromotionCandidate.GoMeans | scripts/ops/package-production-promotion-candidate.ts:620-658 | a go if and only if the manifest is sound and asks for it, every reference and file is inside the roots, every required one exists, every kept digest matches, the packet is ready and a key is there |
| GoNoGoPacket.GoMeansGatesPass | scripts/render/render-production-go-no-go-packet.ts:636-654 | go if and only if every required gate passes, and if and only if there is no blocker: no gate fails silently |
| GoNoGoPacket.GoPacketMeans | scripts/render/render-production-go-no-go-packet.ts:231-538 | a go packet said outright, for every summary and every input, in both directions |
| GoNoGoPacket.DecisionMeans | scripts/render/render-production-go-no-go-packet.ts:625-655 | the eight gates in order, and the decision's blockers are exactly those of required gates that do not pass |
| GoNoGoPacket.CandidateMeans | scripts/render/render-production-go-no-go-packet.ts:231-291 | the candidate gate's blockers in order, each for its own reason |
| GoNoGoPacket.EvidenceMeans | scripts/render/render-production-go-no-go-packet.ts:293-329 | the evidence gate's blockers in order: the eight named items, the counts, missing and mismatched artifacts |
| GoNoGoPacket.SharedStoreMeans | scripts/render/render-production-go-no-go-packet.ts:354-384 | the shared-store gate's blockers in order |
| GoNoGoPacket.ProofGatesMean | scripts/render/render-production-go-no-go-packet.ts:331-450 | signer, enforcement-point and provider-route gates: passed exactly on a well-formed digest, the last two asked only in their scope |
| GoNoGoPacket.RunbookMeans | scripts/render/render-production-go-no-go-packet.ts:452-492 | the runbook gate's blockers in order, with the texts it looks for |
| GoNoGoPacket.ApprovalMeans | scripts/render/render-production-go-no-go-packet.ts:494-538 | the approval gate's blockers in order |
| GoNoGoPacket.DigestMeans | scripts/render/render-production-go-no-go-packet.ts:181-185 | which texts count as a digest |
| GoNoGoPacket.ApprovalRefMeans | scripts/render/render-production-go-no-go-packet.ts:193-198 | which texts count as a reference of the approval |
| GoNoGoPacket.CandidateVerdictCarries | scripts/render/render-production-go-no-go-packet.ts:231-291 | a packaged summary passes the candidate gate if and only if its verdict is go, and a go passes the shared-store gate |
| GoNoGoPacket.EvidenceGateOfGo | scripts/render/render-production-go-no-go-packet.ts:293-329 | a go candidate passes the evidence gate if and only if all eight named items are in the bundle and no artifact at all is missing, optional ones included |
| GoNoGoPacket.GoPacketOnPackagedCandidate | scripts/render/render-production-go-no-go-packet.ts:585-684 | a go packet on a packaged summary implies a sound manifest, every reference present, clean and matching, and a valid independent approval |
| PromotionChain.PacketAccepted | scripts/ops/package-production-promotion-candidate.ts:463-495 | for all inputs, the packager accepts a readiness packet if and only if that packet has no issue |
| PromotionChain.GoMeansReady | scripts/render/render-production-go-no-go-packet.ts:585-684 | a go decision on what the packager made of manifest and workspace implies that the readiness packet in the file the manifest names had no issue left, and what that says of the repository, the environment, the alert probe and the benchmarks; and that manifest, key and artifacts were in order |
| PromotionChain.GoPacketIsBundled | scripts/render/render-production-go-no-go-packet.ts:585-684 | and that this file passed the boundary, if the packaging command does not name its id |
| HaReadiness.ConnectivityMeans | scripts/probe/probe-ha-runtime-connectivity.ts:191-286 | no connectivity issue if and only if every required service answers and profile, hostname, images and TLS are valid |
| HaReadiness.ConnectivityIssuesMean | scripts/probe/probe-ha-runtime-connectivity.ts:272-286 | which connectivity issues are reported, in order |
| HaReadiness.TlsValidMeans | scripts/probe/probe-ha-runtime-connectivity.ts:236-270 | TLS is valid with certificate and key, an issuer or certificate ARNs, as its mode has it |
| HaReadiness.EnvMeans | scripts/probe/probe-ha-release-inputs.ts:138-237 | the checks leave no issue if and only if the environment meets every condition, those for public deployments always included |
| HaReadiness.LeavesMean | scripts/probe/probe-ha-release-inputs.ts:22-77 | what each of the single checks reports of the raw environment and its file companions |
| HaReadiness.ProfileMeansReport | scripts/probe/probe-ha-release-inputs.ts:83-100 | what is reported of the runtime profile |
| HaReadiness.CoreIssuesMean | scripts/probe/probe-ha-release-inputs.ts:138-144 | the issues of images, stores and profile, in order |
| HaReadiness.KeyIssuesMean | scripts/probe/probe-ha-release-inputs.ts:145-152 | those of the keys |
| HaReadiness.PublicFlagIssuesMean | scripts/probe/probe-ha-release-inputs.ts:153-170 | those of flags that a public deployment must not set |
| HaReadiness.BillingIssuesMean | scripts/probe/probe-ha-release-inputs.ts:171-182 | those of billing |
| HaReadiness.SignInIssuesMean | scripts/probe/probe-ha-release-inputs.ts:183-205 | those of sign-in |
| HaReadiness.TlsIssuesMean | scripts/probe/probe-ha-release-inputs.ts:207-216 | those of TLS |
| HaReadiness.SecretIssuesMean | scripts/probe/probe-ha-release-inputs.ts:217-237 | those of the secret store |
| HaReadiness.MissingInputsHold | scripts/render/render-ha-promotion-packet.ts:49-115 | exactly which inputs the packet lists as missing |
| HaReadiness.RunProbe | scripts/probe/probe-ha-release-inputs.ts:120-279 | the environment is checked through the shared list of issues, and probed and rendered only if it is clean |
| HaReadiness.ProbeMeans | scripts/probe/probe-ha-release-inputs.ts:239-276 | no issue if and only if the environment is clean, everything answers and the bundle renders; completeness and the two success flags follow |
| HaReadiness.CleanProbeLeavesNothingMissing | scripts/render/render-ha-promotion-packet.ts:49-115 | where the probe is clean the packet's own list is empty too, except exactly for a SAML signing flag padded with blanks and no signing material |
| HaReadiness.PaddedFlagStillMissing | scripts/render/render-ha-promotion-packet.ts:49-115 | such an environment: the probe is clean and the list is not empty |
| ProductionReadiness.RepoMeans | scripts/lib/repo-pipeline-readiness.ts:15-118 | ready if and only if no issue, and only on an explicit yes or a summary whose first recognizable signal passes |
| ProductionReadiness.RepoLeafMeans | scripts/lib/repo-pipeline-readiness.ts:9-118 | the repository leaf over the texts and summaries themselves: an explicit text is read by its words; else ready if and only if the first of ok, passed and success that is a boolean is true, or, none being one, the first of status, state and result with a listed word has a passing one, or, failing that too, the nested flag is true |
| ProductionReadiness.HaPacketMeans | scripts/render/render-ha-promotion-packet.ts:151-206 | ready if and only if no issue is listed, which means a clean probe, nothing missing and a ready repository |
| ProductionReadiness.RunObsProbe | scripts/probe/probe-observability-release-inputs.ts:115-191 | the flags and issues raised branch by branch are those of the probe, and a refused alert configuration ends it |
| ProductionReadiness.AlertProbeMeans | scripts/probe/probe-observability-release-inputs.ts:157-169 | where no mail setting opens routes of its own: the probe ends exactly where the renderer accepts, and passes if and only if the routes are read exactly once and coverage of the parsed text is valid; on settings that do not pass for structure, if and only if delivery is covered; and covered delivery is enough where no setting opens a receiver |
| ProductionReadiness.ObsProbeMeans | scripts/probe/probe-observability-release-inputs.ts:115-191 | for all inputs, no issue if and only if inputs, rendering, receivers and the alert probe are all in order |
| ProductionReadiness.ObsPacketMeans | scripts/render/render-observability-promotion-packet.ts:150-209 | for all inputs, ready if and only if no issue is listed |
| ProductionReadiness.ObsEnvIssuesMean | scripts/probe/probe-observability-release-inputs.ts:100-113 | which issues the probe raises on its inputs, in order |
| ProductionReadiness.ObsProbeReports | scripts/probe/probe-observability-release-inputs.ts:115-191 | the probe's three flags and all its issues in order: a receiver counts unless it is configured and does not answer, and each later question is asked only where the earlier ones hold |
| ProductionReadiness.AlertEnvReads | scripts/render/render-alertmanager-config.mjs:41-56 | the renderer's environment, setting by setting: the variable itself, or else what its file holds |
| ProductionReadiness.ObsMissingMean | scripts/render/render-observability-promotion-packet.ts:42-89 | which inputs the packet lists as missing, in order |
| ProductionReadiness.HaPacketIssuesMean | scripts/render/render-ha-promotion-packet.ts:151-206 | an issue is listed in this packet if and only if it is one of its probe, an input still missing or one of the repository |
| ProductionReadiness.ObsPacketIssuesMean | scripts/render/render-observability-promotion-packet.ts:150-209 | the same for the observability packet |
| ProductionReadiness.HaPacketReports | scripts/render/render-ha-promotion-packet.ts:151-206 | the flags, the count of missing inputs and the state of the packet |
| ProductionReadiness.ObsPacketReports | scripts/render/render-observability-promotion-packet.ts:150-209 | the same for the observability packet, its list of missing inputs included |
| ProductionReadiness.PacketReports | scripts/render/render-production-readiness-packet.ts:267-287 | the four flags and the state of the production packet |
| ProductionReadiness.PacketIssuesMean | scripts/render/render-production-readiness-packet.ts:243-265 | an issue is listed if and only if it is one of the observability packet, of the other packet, of the runtime authority, or a benchmark past its age |
| ProductionReadiness.AuthorityIssuesMean | scripts/render/render-production-readiness-packet.ts:71-138 | which issue the runtime authority reports for which profile |
| ProductionReadiness.AuthorityMissing | scripts/render/render-production-readiness-packet.ts:109-126 | how many inputs the runtime authority counts as missing |
| ProductionReadiness.AcceptedTargetsAreNamed | scripts/render/render-observability-promotion-packet.ts:57-84 | a delivery target that the renderer accepts is never listed as missing, both being read from the same variables and file companions |
| ProductionReadiness.EmailAloneIsNotMissingYetBlocks | scripts/render/render-observability-promotion-packet.ts:42-89 | where e-mail is the only target for the default receiver and no setting opens a receiver or routes of its own, the packet lists no missing target and yet stays blocked |
| ProductionReadiness.AuthorityMeans | scripts/render/render-production-readiness-packet.ts:71-139 | passed if and only if no issue, and only for a single durable node or a shared profile with its database and storage |
| ProductionReadiness.ReadyMeansNoIssues | scripts/render/render-production-readiness-packet.ts:253-289 | through the whole tree and for all inputs: ready for promotion if and only if the list of issues is empty, and what that means at every leaf |
| ProductionReadiness.ReadyMeansCovered | scripts/render/render-production-readiness-packet.ts:253-289 | on alert settings that do not pass for structure, ready implies that the default, critical and warning receivers each have a target |
| StripeBootstrap.ListAll | scripts/ops/bootstrap-stripe-commercial.ts:131-140 | ends, and returns every object once and in order, whatever page size the server settles on |
| StripeBootstrap.Store.EnsureMeter | scripts/ops/bootstrap-stripe-commercial.ts:160-179 | the meter returned counts the event and is the one found afterwards; one is created if and only if none in the old store does |
| StripeBootstrap.Store.EnsureProduct | scripts/ops/bootstrap-stripe-commercial.ts:142-158 | the same for the active product that carries a plan |
| StripeBootstrap.Store.EnsurePrice | scripts/ops/bootstrap-stripe-commercial.ts:181-232 | the price returned is active, of the product, kind, amount and meter wanted, in usd, monthly, licensed or metered by its kind, and the one found afterwards; one is created if and only if no price of the old store has all of these |
| StripeBootstrap.PriceFound | scripts/ops/bootstrap-stripe-commercial.ts:189-209 | a price is found exactly where one is active, of the product, kind, amount and meter wanted, in usd, monthly, licensed for a base and metered for an overage price; and it is the first such |
| StripeBootstrap.ProductFound | scripts/ops/bootstrap-stripe-commercial.ts:142-145 | a product is found exactly where an active one carries the plan, and it is the first |
| StripeBootstrap.MeterFound | scripts/ops/bootstrap-stripe-commercial.ts:160-163 | a meter is found exactly where one counts the event, and it is the first |
| StripeBootstrap.PlanStep | scripts/ops/bootstrap-stripe-commercial.ts:349-374 | one turn of the plan loop leaves product, base price and overage price findable, and changes nothing that was there |
| StripeBootstrap.PlanKeepsPlan | scripts/ops/bootstrap-stripe-commercial.ts:349-374 | settling one plan leaves every other settled plan as it was |
| StripeBootstrap.SettledStays | scripts/ops/bootstrap-stripe-commercial.ts:349-374 | a settled plan is left alone |
| StripeBootstrap.CataloguedIds | scripts/ops/bootstrap-stripe-commercial.ts:349-374 | the ids are determined by the store |
| StripeBootstrap.CataloguedMeans | scripts/ops/bootstrap-stripe-commercial.ts:349-374 | what a catalogued store holds under the ids, field by field: the meter, and for each of the three plans its product and prices |
| StripeBootstrap.Store.Bootstrap | scripts/ops/bootstrap-stripe-commercial.ts:340-374 | a run leaves everything findable under the ids it returns and touches nothing that was there; after an earlier run it creates nothing and returns that run's ids |
| RehearsalChain.Workspace.Run | scripts/rehearse/rehearse-production-observability-alerting.ts:673-766 | the driver overwrites its own summary alone, with the time, the target and what its checks and behaviour call for |
| RehearsalChain.PassedMeans | scripts/rehearse/rehearse-production-consequence-behavior.ts:718-758 | a summary is passed if and only if every check in it passed, and if and only if inputs, stored prior summaries and behaviour were in order |
| RehearsalChain.RunMeans | scripts/rehearse/rehearse-production-observability-alerting.ts:673-766 | what a run writes, said of the run alone: blocked where an input, the host name or an earlier step is missing, whatever the behaviour; else passed or failed as the behaviour reports |
| RehearsalChain.PrerequisitesAre | scripts/rehearse/rehearse-production-observability-alerting.ts:198-298 | the checks before the behaviour, place by place: inputs, each earlier step in order, further inputs |
| RehearsalChain.ChecksMean | scripts/rehearse/rehearse-production-observability-alerting.ts:694-766 | and the checks after them: one skipped, one failed, or one for each result |
| RehearsalChain.StoredIsLastWritten | scripts/rehearse/rehearse-production-async-recovery.ts:717-759 | what a driver reads is what the last run of that step wrote |
| RehearsalChain.PassedIsGrounded | scripts/rehearse/rehearse-production-backup-restore-dr.ts:250-271 | in every history, a passed step has for each earlier step a last run that passed and itself stood on such ground |
| RehearsalChain.ObservabilityNeedsAllSteps | scripts/rehearse/rehearse-production-observability-alerting.ts:260-280 | a passed step 09 is preceded by passed records of each of steps 05 to 08, the last of their step |
| RehearsalChain.OneRehearsalMeans | scripts/rehearse/rehearse-production-observability-alerting.ts:260-280 | in every history: all that a passed run stands on, directly or through others, holds one run of each step, if and only if the last runs of the earlier steps came in the order of the steps |
| RehearsalChain.OneRehearsalMeansDated | scripts/rehearse/rehearse-production-observability-alerting.ts:742-742 | the same as a look at the stored summaries before the run: if and only if they are dated in the order of the steps |
| RehearsalChain.OneRehearsalOneHost | scripts/rehearse/rehearse-production-async-recovery.ts:712-763 | on a single rehearsal every summary that a passed run stands on, and its own, names the host of the one substrate run |
| RehearsalChain.OneHostMeans | scripts/rehearse/rehearse-production-observability-alerting.ts:745-749 | a passed run and all summaries it read name one host if and only if the stored summaries of the earlier steps name that of the stored substrate summary |
| RehearsalChain.OneTargetMeans | scripts/rehearse/rehearse-production-observability-alerting.ts:745-749 | and one whole target if and only if they and the target the run will write equal that of the stored substrate summary |
| RehearsalChain.OneHostThroughoutMeans | scripts/rehearse/rehearse-production-observability-alerting.ts:745-749 | everything a passed run stands on, however far back, names its host if and only if the stored summaries agreed when it ran and when each of those runs did |
| RehearsalChain.StaleRehearsalPasses | scripts/rehearse/rehearse-production-observability-alerting.ts:260-280 | counterexample to freshness and to one target: step 09 passes although steps 06 to 08 were rehearsed for another host, before step 05 last failed |
| TemporaryEnv.ProcessEnv.SetTemporary | scripts/rehearse/rehearse-production-async-recovery.ts:314-319 | every key is set, and what was there before is saved, absence included |
| TemporaryEnv.ProcessEnv.Restore | scripts/rehearse/rehearse-production-async-recovery.ts:320-327 | every saved key gets its saved value or is deleted |
| TemporaryEnv.RestorePutsBack | scripts/rehearse/rehearse-production-async-recovery.ts:314-328 | whatever happens in between, restoring gives the keys that were set their old values and leaves every other key alone |
| TemporaryEnv.SetThenRestore | scripts/rehearse/rehearse-production-async-recovery.ts:314-328 | setting and restoring with nothing in between changes nothing |

## Left out

- Hashing, Ed25519 signing and gzip: hashes are functions given from outside; a signing key that is present is taken to sign.
- `extractTaggedJson`: a regular expression over a tag name in front of the extraction that is modelled.
- Values without a JSON text (`undefined`, functions, cyclic values) and the rounding of numbers: numbers are kept as their lexemes.
- JsonCanonical.StableJsonCanonical: the digest over the stable text is not modelled, because nothing is claimed of SHA-256.
- Archive names are given as their UTF-8 bytes; ustar entry kinds other than regular files are never written.
- FileTree.ListedResolves: the order in which `listFiles` sorts is not modelled, because no property here depends on it.
- Symbolic link targets are given as the absolute paths they denote; files do not change while the packager runs.
- BundleArchive.ArchiveBundle: the bundle directory is taken to be empty before the run, because the packager never clears it and what an earlier run left is not part of this model.
- PromotionCandidate.PackageCandidate: which of several long names the tar error quotes is not modelled; the JSON parser that reads the packet is a function given from outside.
- AlertEndToEnd.RenderedTextParses: not for mail settings with a line `route:` and a line `  routes:` after it, which open routes of their own; those are the subject of AlertEndToEnd.ParsedBehindSettings and AlertEndToEnd.RoutingBehindSettings, which exclude nothing.
- AlertEndToEnd.RoutingOfRendered: likewise.
- AlertEndToEnd.ProbeOfRendered: not for settings that pass for structure; coverage is then said by AlertEndToEnd.CoverageByLastReceiver and AlertEndToEnd.CoverageOfRendered.
- ProductionReadiness.AlertProbeMeans: not for mail settings that open routes of their own.
- ProductionReadiness.EmailAloneIsNotMissingYetBlocks: not for settings that open routes or receivers of their own, because those may deliver for the default receiver.
- ProductionReadiness.ReadyMeansCovered: not for settings that pass for structure, because a stray line can stand in for a target.
- AnthropicRetry.RunWithRetry: floating-point rounding of the jitter share is not modelled; delays are computed over `real`.
- AnthropicPolicy.EvaluateSmokeProof: a clock that is not a finite number is not modelled.
- AnthropicPolicy.ResolvePolicy: the digest over the configuration and a requested token count that is not a finite number are not modelled.
- ProviderRouting.FailoverSymmetry: a failover whose id is empty is excluded, because an empty id counts as no id in a request.
- HaReadiness.EnvMeans: the format tests on images, storage classes, intervals, hostnames, PEM texts and ARNs are predicates given from outside.
- ProductionReadiness.AuthorityMeans: the storage evaluation behind it is a flag, because its stores are not part of this model.
- GoNoGoPacket.GoPacketMeans: argument and environment lookup for the packet's inputs is not modelled.
- StripeBootstrap.Store.Bootstrap: the portal configuration and the webhook endpoint are not modelled; objects deleted or created by others during a run are excluded.
- RehearsalChain.OneRehearsalMeansDated: for a clock that advances from run to run; RehearsalChain.OneRehearsalMeans needs no clock.
- RehearsalChain.PassedMeans: the rehearsed behaviour is an outcome given from outside, because it exercises stores and queues that are not part of this model.
- The admission engine, the release kernel and the service code, secret redaction, READMEs, argument parsing, demo scripts, benchmarks and the SQL bootstrap: outside the deciding code, or easy.
