# Nginx Proxy Guard: a model of the configuration engine

Nginx Proxy Guard turns the settings of its proxy hosts into nginx configuration files and keeps them consistent while
many requests change them. This project models that engine in Dafny and proves what it promises.

* **The policy compiler.** A host's security settings become a straight-line nginx program of `set`, `if` and `return`.
  nginx has no `and`, `or` or nesting, so the program concatenates flags into strings and compares those. `Policy` is the
  compiler, `Rewrite` the language with its interpreter, `PolicyDecision` the meaning of the settings as a cascade of
  stages without variables or order of assignment. `PolicyProof.PolicyCorrect` says that for every configuration and
  every request the program does what the cascade says, and `PolicyMeaning.BlockedIff` and `PolicyMeaning.ReasonIs` say
  on the settings themselves whom that blocks, and why. `Challenge` carries a passed request through `location /`, the
  authorisation subrequest and the API handler; `GeoMeaning` spells the geo decision out in country codes and address
  blocks, `AgentMeaning` the lists of agents in the globs that occur in an agent's name. `NginxText` is how nginx reads
  quoted strings and words, `GlobWords` what that does to an expression made of globs.
* **The transaction protocol.** One lock, a disk, a running configuration, and operations that back up, write, test,
  reload and roll back. `Scripts` gives each operation as a script of single steps; `Manager` has the operations as they
  are written, with early returns and rollbacks in place, each proved equal to its script for every behaviour of the
  operating system and of nginx; `Successes` and `Transactions` prove when an operation succeeds and what success and
  failure leave behind; `Protocol` interleaves any
  number of clients and proves what every run keeps; `Guarantees` shows that every operation of every interleaving starts
  and ends as if alone, so that what is proved of an operation run alone holds of it there.
* **The texts.** Globs, exceptions, address blocks, file names, quotes, JavaScript strings, include files and custom
  configuration are converted by chains of replacing, splitting and joining. Each conversion is proved against the reader
  that undoes it, or is shown to be a projection.

What the proofs say about the code beyond its promises:

* A request that passes can keep a reason in its log variables: the direct-block geo program does not clear its reason
  for an allowed address or an exempt path, and an agent with priority keeps the mark of the bot filter.
  `PolicyDecision.PassedLog` says exactly which, `Witnesses.PassedWithReason` is such a request; a returned request
  always carries the reason of the stage that returned.
* A list of agents that holds nothing but comments matches every agent: as a list of blocked agents it turns everyone
  away, as a list of allowed ones it switches the bot filter off (`AgentMeaning.CommentsInBotFilter`).
* A semicolon, a tab or a line break in a glob ends the word that the expression is for nginx, and so breaks the
  configuration (`GlobWords.GroupIsOneWord`). A backslash in a glob is halved on the way to the regex engine, so that `\s`
  catches every agent with a space (`GlobWords.GroupKeepsValue`, `AgentMeaning.BackslashGlobExample`).
* `escapeNginxPattern` yields a whole nginx string for exactly those patterns in which every quote has no backslash or an
  odd run of them before it and which do not end in an odd run (`Escapers.EscapeNginxPatternFits`,
  `Escapers.DoubledBackslashExample`).
* A refused update restores a file when it was absent, or could be read and was not empty: an empty backup counts as none,
  and a file that could not be read is taken for new and removed. Apart from coincidences, such as the new text being
  empty too, it restores it only then (`Transactions.GenerateRollsBack`, `Transactions.WafRollsBack`;
  `Transactions.EmptyBackupExample`). Filter files are restored even when empty (`Transactions.FiltersRollBack`).
* A change of name is tested with the old file and the new one side by side exactly if the old one could not be removed,
  which the code only logs (`Transactions.RenameTested`, `Transactions.BothFilesExample`). A refused one without a backup
  that counts leaves the refused new file in place (`Transactions.RenameLeaves`).
* A change of name that leaves the file name as it is has no rollback: what was written stays although nginx refuses it
  (`Successes.SameNameIsFinal`).
* An update that fails before its test is not rolled back. If the main file had been written by then, its new text stays
  on the disk untested (`Transactions.UpdateHalts`). Removals and bans have no rollback either
  (`Transactions.RemovalLeaves`, `Transactions.BannedIsFinal`).
* A reload that is reported as failed may have taken place; nginx then goes on with the refused files although the disk
  has been rolled back (`Transactions.RunningAfterRefusal`).
* With an access list of which any condition is enough, a flagged client at an allowed address reaches the upstream
  without a token, and one at another address does not when the API fails (`Challenge.ReachesUpstream`,
  `Witnesses.RefusedTokenLetIn`).
* `writeFileAtomic` leaves its temporary file behind when changing its mode or renaming it fails, because the cleanup
  is already disarmed (`AtomicWrite.TempLeftBehind`, `AtomicWrite.TempLeftExample`).
* The pattern for an address block covers the block for prefixes of eight bits or more only, and is the block for 8, 16
  and 24 only (`Cidr.CoversIff`, `Cidr.ExactIff`).
* A wildcard domain and its base domain share a file name, and that is the only collision among accepted domains
  (`Filenames.ConfigFilenameCollision`).
* Splitting the location part of a custom configuration again is not always a fixed point: a vertical tab is trimmed as
  white space but is not white space to the directive pattern (`Resplit.VerticalTabExample`). It is one exactly
  when the first line that counts, once trimmed, does not read as a server-only directive (`Resplit.ResplitIff`).
* `http2` is in the table of server-only directives, but the pattern that looks names up has no digits, so `http2 on;`
  stays in the location part (`AdvancedConfig.Http2IsNeverCaptured`, `Resplit.Http2Example`).
* The reason, category and description of a firewall exclusion are written into comments unchecked. A line break in one
  of them starts a line of its own, and a second line such as `SecRuleRemoveById 942100` removes a rule that no list
  excludes and that the rule browser shows as enabled (`WafFile.RemovedIff`, `WafFile.ShownAgainstFile`,
  `WafFile.StrayExample`). Include files likewise read back as their list exactly if every entry is on one line.

`dafny verify dfyconfig.toml` checks everything.

## Model

Paths are relative to the root of the repository. The HTTPS server block (lines 955 to 1490 of the template) holds the
same program as the HTTP one; the rows cite the HTTP lines.

| member | source | states |
|---|---|---|
| PolicyProof.PolicyCorrect | api/internal/nginx/proxy_host_template.go:97-628 | For every configuration, request and regex engine, the compiled program returns with the code, reason, rule and category of the first stage of the cascade that blocks, never a stale one; otherwise it lets the request through with the challenge flag up exactly when the request is to be challenged. |
| PolicyMeaning.BlockedIff | api/internal/nginx/proxy_host_template.go:97-628 | Whom the cascade blocks, on the settings alone: exactly a request with the wrong country, hit by some rule of the database by its type or by a built-in one, banned, from a blocked cloud, with an agent on a list in use, or on the shared agent map, and not let off by the exemption, the exceptions, the addresses, the bots or the lists that apply to that stage. |
| PolicyMeaning.ReasonIs | api/internal/nginx/proxy_host_template.go:97-628 | A blocked request is logged with the reason of the first of these that applies, in this order, and gets 418 exactly for the cloud challenge. |
| PolicyMeaning.GeoIff | api/internal/nginx/proxy_host_template.go:159-334 | The same for the geo stage, blocking or challenging, with country codes, addresses and bots spelled out. |
| PolicyMeaning.ExploitIff | api/internal/nginx/proxy_host_template.go:348-471 | With rules in the database a request is blocked exactly if one of them finds its expression in the part of the request that its type names, the query and path ones unless an exception of either list matches the path; without, if a built-in rule does. |
| PolicyMeaning.ExceptionPasses | api/internal/nginx/proxy_host_template.go:362-369 | An entry of the global or of the host's own exceptions that matches the path makes the query and path stages pass. |
| PolicyMeaning.ExemptIff | api/internal/nginx/proxy_host_template.go:124-132 | Exempt are exactly the paths the two expressions match. |
| PolicyMeaning.AllowedBlockPasses | api/internal/nginx/proxy_host_template.go:486-556 | A client in an allowed block of eight bits or more is held up by none of the geo, cloud and bot stages. |
| PolicyMeaning.AllowedAddressPasses | api/internal/nginx/proxy_host_template.go:486-556 | Nor is one at an allowed address. |
| GeoProof.GeoWithAllowedIPs | api/internal/nginx/proxy_host_template.go:161-206 | With allowed addresses listed, the program tested by "0Y0" returns 403 exactly for a blocked country, an address not allowed, no pardoned search bot and a path that is not exempt. |
| GeoProof.GeoWithSearchBots | api/internal/nginx/proxy_host_template.go:207-236 | The same for the program that only pardons search bots, tested by "Y0". |
| GeoProof.GeoPlain | api/internal/nginx/proxy_host_template.go:237-268 | The same for the program without pardons. |
| GeoProof.GeoDirectRuns | api/internal/nginx/proxy_host_template.go:159-270 | Whichever of the three programs is emitted, it blocks exactly when the geo stage of the cascade does. |
| GeoProof.GeoChallengeRuns | api/internal/nginx/proxy_host_template.go:283-334 | In challenge mode the flag ends up set exactly for blocked countries without an allowed address, a pardoned bot or a trusted address, although later instructions overwrite earlier ones. |
| GeoMeaning.CountryBlockedMeaning | api/internal/nginx/proxy_host_template.go:177-193 | In both modes the emitted country expression, with the private code spliced in or taken out afterwards, blocks a country exactly if it is off the list (whitelist) or on it (otherwise) and not an allowed private network; an empty list counts as the empty code. |
| GeoMeaning.AllowedBlockIsNotBlocked | api/internal/nginx/proxy_host_template.go:164-174 | An address inside an allowed block of eight bits or more is neither blocked nor challenged. |
| Witnesses.PassedWithReason | api/internal/nginx/proxy_host_template.go:161-206 | An allowed address in a blocked country, let through and left with the reason `geo_block`. |
| ExploitProof.QueryStageRuns | api/internal/nginx/proxy_host_template.go:350-374 | The query loop blocks exactly if some rule matches and no merged exception does, and records the last rule that matched. |
| ExploitProof.UriStageRuns | api/internal/nginx/proxy_host_template.go:376-398 | The same for request paths, without a rule being recorded. |
| ExploitProof.AgentRulesRun | api/internal/nginx/proxy_host_template.go:399-411 | Agent rules return at the first match, with that rule. |
| ExploitProof.MethodRulesRun | api/internal/nginx/proxy_host_template.go:412-422 | Method rules return 405 at the first match, with that rule. |
| ExploitProof.FallbackRuns | api/internal/nginx/proxy_host_template.go:423-471 | Without rules in the database, the built-in rules decide in their order, the remote-include rule subject to the exceptions. |
| AgentProof.BannedRuns | api/internal/nginx/proxy_host_template.go:474-485 | Manual bans and filter bans are told apart by value and reason. |
| AgentProof.CloudRuns | api/internal/nginx/proxy_host_template.go:486-525 | The test for "10" returns 418 or 403 exactly for cloud addresses without priority. |
| AgentProof.BotFilterRuns | api/internal/nginx/proxy_host_template.go:527-616 | The first kind of agent that matches blocks with its category unless the client has priority; a client with priority is left with the last kind that matched. |
| AgentProof.FilterAgentsRun | api/internal/nginx/proxy_host_template.go:617-628 | The shared agent map blocks unless the client has the priority of the bot filter, or the exemption if there is no bot filter. |
| Rewrite.ExecThen | api/internal/nginx/proxy_host_template.go:97-628 | Running two program parts in sequence is running the first and, unless it returned, the second. |
| Rewrite.RunWhenEach | api/internal/nginx/proxy_host_template.go:164-174 | A range over tests with one body assigns exactly if one of the tests holds. |
| Rewrite.DecodeFlagLetterFlag | api/internal/nginx/proxy_host_template.go:201-205 | A flag, an optional letter and a flag concatenate to "0Y0" in one way only. |
| Rewrite.DecodeLetterFlag | api/internal/nginx/proxy_host_template.go:232-236 | An optional letter and a flag concatenate to "Y0" in one way only. |
| Rewrite.DecodeFlagFirst | api/internal/nginx/proxy_host_template.go:570-574 | A flag in front of any text gives "01" in one way only. |
| Rewrite.DecodeFlagLast | api/internal/nginx/proxy_host_template.go:510-524 | A flag after any text gives "10" in one way only. |
| Policy.FilterRulesByPatternType | api/internal/nginx/template_funcs.go:184-194 | The loop collects rules of the type only, and all of them. |
| Policy.RulesOfTypeCount | api/internal/nginx/template_funcs.go:184-194 | Every rule of the type is collected as often as it is listed, and no other. |
| Policy.RulesOfTypeConcat | api/internal/nginx/template_funcs.go:184-194 | The order is that of the list. |
| Policy.HasRulesOfType | api/internal/nginx/template_funcs.go:196-203 | Holds exactly if some rule has the type. |
| Challenge.VisitDecides | api/internal/nginx/proxy_host_template.go:816-847 | For every configuration, from the first server instruction to the access phase: a blocked request gets its code; with challenge mode on a flagged one without a cookie is redirected at once, and the others meet the access list and the answer of the API; with it off, the access list alone. |
| Challenge.ReachesUpstream | api/internal/nginx/proxy_host_template.go:816-847 | In challenge mode a request reaches the upstream exactly if no stage blocks it, it has a cookie should it be flagged, and it is admitted: without an access list, if it is not flagged, a search engine, has an accepted token, or the API failed with 500, 502, 503 or 504; with a list, if the list allows the address as well, or, where any condition is enough, either of the two, a failed API then counting for nothing. |
| Witnesses.RefusedTokenLetIn | api/internal/nginx/proxy_host_template.go:816-847 | A flagged client with a token the API refuses, which reaches the upstream because any condition of the access list is enough. |
| Challenge.LocationRuns | api/internal/nginx/proxy_host_template.go:820-840 | The location program redirects exactly the flagged clients without a cookie. |
| Challenge.DecodeChallenge | api/internal/nginx/proxy_host_template.go:831-840 | The flag and the missing cookie concatenate to "11" in one way only. |
| Challenge.TokenIsChecked | api/internal/handler/challenge.go:192-236 | The handler answers 200 exactly for an unflagged client, an agent with a listed engine name in it or an accepted token, and 401 otherwise; it reads the cookie only when nginx sent no token. |
| Challenge.EngineNameRecognised | api/internal/handler/challenge.go:38-46 | A listed engine name is recognised anywhere in the agent and in any letter case. |
| Challenge.SearchEngineIff | api/internal/handler/challenge.go:38-46 | An agent counts as a search engine if and only if a listed name is part of it, in any letter case. |
| Challenge.UnsuspiciousIsNoEngine | api/internal/handler/challenge.go:38-46 | An agent without the letters b, e, g, s and y is none, because every listed name has one of them. |
| Witnesses.BrowserTurnedAway | api/internal/handler/challenge.go:192-236 | A flagged browser with a token the API refuses: 401, and back to the challenge page. |
| Witnesses.EngineLetIn | api/internal/handler/challenge.go:192-236 | The same client under a search engine's name reaches the upstream. |
| GlobPattern.ToRegexPattern | api/internal/nginx/template_funcs.go:39-73 | The loop computes the joined, escaped, cut and limited entries. |
| GlobPattern.GlobsAre | api/internal/nginx/template_funcs.go:39-73 | The globs are the first 100 entries, each down to its first 500 characters; a list within those limits loses nothing. |
| GlobPattern.EscapeGlobLineAtOnce | api/internal/nginx/template_funcs.go:52-66 | The fifteen replacements in sequence are one map over the characters. |
| GlobPattern.RegexReadsBack | api/internal/nginx/template_funcs.go:39-73 | Whenever an entry survives, reading the expression gives back exactly the listed globs: at most 100, each cut to 500 characters, star as any sequence, space as white space, the rest literal. |
| GlobPattern.RegexCountsGlobs | api/internal/nginx/template_funcs.go:39-73 | Exactly when an entry survives does the expression have as many alternatives as there are globs. |
| GlobWords.GroupIsOneWord | api/internal/nginx/proxy_host_template.go:112-112 | The expression of a list, written in parentheses without quotes, is one word of the configuration if and only if no listed glob holds a semicolon, a tab or a line break. |
| GlobWords.GroupKeepsValue | api/internal/nginx/proxy_host_template.go:112-112 | The value nginx reads is the expression as written if and only if no listed glob holds a backslash. |
| GlobWords.SemicolonExample | api/internal/nginx/proxy_host_template.go:565-565 | A glob with a semicolon, for which it is not one word. |
| GlobWords.BackslashExample | api/internal/nginx/template_funcs.go:52-52 | A glob with a backslash whose expression nginx reads as something else. |
| AgentMeaning.AgentListedIff | api/internal/nginx/proxy_host_template.go:111-115 | For a regex engine that honours the emitted syntax and a list without backslashes: an agent is listed if and only if a listed glob occurs in it, in any letter case, or the list has no glob at all. |
| AgentMeaning.PlainGlobOccurs | api/internal/nginx/template_funcs.go:39-73 | A glob without star and space occurs exactly where it is part of the agent, up to letter case. |
| AgentMeaning.OnlyCommentsCatchAll | api/internal/nginx/template_funcs.go:39-73 | A list of nothing but comments and blank lines lists every agent. |
| AgentMeaning.CommentsInBotFilter | api/internal/nginx/proxy_host_template.go:557-612 | Such a list of custom blocked agents makes the program turn away every client without priority; such a list of custom allowed agents makes the bot filter pass everyone. |
| AgentMeaning.BackslashGlobExample | api/internal/nginx/template_funcs.go:52-66 | The glob of a backslash and an s, which does not occur in an agent that is listed by it. |
| AgentMeaning.EnginesExist | api/internal/nginx/proxy_host_template.go:111-115 | There is an engine that honours the emitted syntax. |
| ReplaceChain.SequentialIsSimultaneous | api/internal/handler/challenge.go:19-29 | A chain of replacements in which none looks for what an earlier one wrote is one map over the characters. |
| Escapers.EscapeJSAtOnce | api/internal/handler/challenge.go:19-29 | The eight replacements in sequence are one map over the characters. |
| Escapers.EscapeJSRoundTrip | api/internal/handler/challenge.go:19-29 | A JavaScript reader of string literals recovers the text exactly. |
| Escapers.EscapeJSHidesMarkup | api/internal/handler/challenge.go:19-29 | No angle bracket or ampersand is left in the literal. |
| Escapers.UnescapeUndoesEscape | api/internal/nginx/template_funcs.go:18-23 | Unescaping quotes undoes the quote-escaping pass. |
| Escapers.EscapeNginxPatternIdempotent | api/internal/nginx/template_funcs.go:18-23 | Escaping twice is escaping once. |
| Escapers.EscapeNginxPatternKeepsMeaning | api/internal/nginx/template_funcs.go:18-23 | Unescaped, the result is the unescaped input. |
| Escapers.EscapeNginxPatternQuotes | api/internal/nginx/template_funcs.go:18-23 | A backslash stands directly before every quote in the result; whether that backslash is itself escaped is the matter of the rows below. |
| Escapers.EscapeNginxPatternFits | api/internal/nginx/proxy_host_template.go:356-356 | Between double quotes nginx reads the result as one string if and only if every quote of the pattern has no backslash or an odd number of them before it, and the pattern does not end in an odd number. |
| Escapers.EscapeNginxPatternKeepsValue | api/internal/nginx/proxy_host_template.go:356-356 | Escaping does not change the value nginx gives to its regex engine. |
| Escapers.DoubledBackslashExample | api/internal/nginx/template_funcs.go:18-23 | Two backslashes and a quote are left as they are, and the quote ends the string. |
| NginxText.OneStringIff | api/internal/nginx/proxy_host_template.go:364-364 | A text put between double quotes as it is, such as an exception, is one string if and only if an odd run of backslashes stands before each of its quotes and an even one at its end. |
| Exceptions.MergeExceptions | api/internal/nginx/template_funcs.go:139-163 | Two passes with one seen-map compute the first occurrences of the entries of the global list followed by those of the host's. |
| Exceptions.SplitExceptions | api/internal/nginx/template_funcs.go:111-125 | Collects the trimmed entries of a text. |
| Exceptions.HasMergedExceptions | api/internal/nginx/template_funcs.go:165-182 | Holds exactly if one of the two lists has an entry. |
| Exceptions.SplitOfMerge | api/internal/nginx/template_funcs.go:111-163 | Splitting the merged text gives the global entries followed by the host's, each where it first occurs. |
| Exceptions.MergedIsUnion | api/internal/nginx/template_funcs.go:139-163 | An entry is in the merged text if and only if it is in one of the two lists. |
| LineLists.EntriesAre | api/internal/nginx/template_funcs.go:111-125 | The entries of a text are exactly its trimmed lines that are neither empty nor begin with `#`. |
| Exceptions.MergeIdempotent | api/internal/nginx/template_funcs.go:139-163 | Merging in entries that are all there changes nothing. |
| Exceptions.MergeAssociative | api/internal/nginx/template_funcs.go:139-163 | Three lists can be merged in either grouping. |
| Dedup.NothingTwice | api/internal/nginx/template_funcs.go:139-163 | No entry is left twice. |
| Dedup.NothingLost | api/internal/nginx/template_funcs.go:139-163 | No entry is lost. |
| Cidr.CidrToNginxPattern | api/internal/nginx/utils.go:22-68 | The builder writes the pattern of one, two or three octets. |
| Cidr.PatternMatches | api/internal/nginx/utils.go:22-68 | An address matches exactly if it agrees with the masked network on the first one, two or three octets. |
| Cidr.PatternCoversBlock | api/internal/nginx/utils.go:17-68 | From eight bits on, every member of the block matches. |
| Cidr.CoversIff | api/internal/nginx/utils.go:17-68 | All members match if and only if the prefix has at least eight bits. |
| Cidr.ExactIff | api/internal/nginx/utils.go:17-68 | The pattern is exactly the block if and only if the prefix has 8, 16 or 24 bits. |
| Cidr.MissedMember | api/internal/nginx/utils.go:17-68 | Below eight bits some member is missed. |
| Cidr.ExtraMatch | api/internal/nginx/utils.go:17-68 | Between octet boundaries some address outside the block matches. |
| Cidr.SpelledOut | api/internal/nginx/utils.go:22-36 | A text that does not parse, trimmed, or a block that is not IPv4 becomes its own text with every dot escaped. |
| Filenames.SanitizedIsClean | api/internal/nginx/utils.go:71-82 | The result is lower case with no doubled, leading or trailing underscore. |
| Filenames.SanitizeFixesCleanNames | api/internal/nginx/utils.go:71-82 | Exactly such names are left as they are. |
| Filenames.SanitizeIdempotent | api/internal/nginx/utils.go:71-82 | Sanitizing twice is sanitizing once. |
| Filenames.ConfigFilenameCollision | api/internal/nginx/utils.go:85-106 | Two hosts with accepted first domains share a file name if and only if the domains agree up to letter case and a leading wildcard. |
| Filenames.AcceptedFilename | api/internal/nginx/utils.go:71-95 | The file of a host with an accepted first domain: that domain in lower case, dots as underscores, without a leading `*.`. |
| Filenames.UnnamedFilename | api/internal/nginx/utils.go:85-108 | Without a domain, or with one of which sanitizing leaves nothing, the identifier names the file. |
| Filenames.ConfigFilenameInjective | api/internal/handler/utils.go:95-104 | Without wildcards, equal file names mean equal domains up to letter case. |
| Filenames.RedirectFilenameInjective | api/internal/nginx/utils.go:98-108 | The same for redirect hosts. |
| Filenames.RedirectsApart | api/internal/nginx/utils.go:85-108 | A redirect host never takes the file of a proxy host, whatever their domains. |
| Filenames.WildcardForgotten | api/internal/nginx/utils.go:71-82 | A wildcard's marker leaves no trace in the file name. |
| Paths.ConfigNamesAreHostNames | api/internal/nginx/utils.go:85-95 | Every generated file name is a host file name, whatever the domain or identifier. |
| Paths.PathsAreFiles | api/internal/nginx/cloud_ips.go:57-59 | The paths of the disk model are different files, given host files named by `GetConfigFilename` in the default directories. |
| AdvancedConfig.SplitByContext | api/internal/nginx/manager.go:571-607 | The loop computes the two parts, trimmed at their ends. |
| AdvancedConfig.SplitIsPartition | api/internal/nginx/manager.go:571-607 | Every line goes to exactly one part and the order is kept: the parts interleave to the input. |
| AdvancedConfig.SideOfLine | api/internal/nginx/manager.go:571-607 | Where a line goes depends on the block depth at it, which the row below reads off the braces, and on the line itself. |
| Blocks.InBlockIff | api/internal/nginx/manager.go:578-592 | The depth at a line is positive if and only if the line is in a block: some earlier line outside every block ends with an opening brace after something else, and the braces of the lines since have not closed it at any point. |
| Blocks.DepthInBlock | api/internal/nginx/manager.go:578-592 | While a block stays open, the depth is one more than the opening braces less the closing ones since its opening line. |
| Blocks.ServerLineIff | api/internal/nginx/manager.go:533-607 | A line goes to the server part if and only if it is in no block, opens none, and begins, after white space, with a name of the table other than `http2` followed by white space. |
| Blocks.AfterBlockExample | api/internal/nginx/manager.go:571-607 | A directive after a block: both parts of the text. |
| AdvancedConfig.ServerDirectiveIff | api/internal/nginx/manager.go:533-574 | The pattern and the table together accept exactly the lines that begin so. |
| AdvancedConfig.Http2IsNeverCaptured | api/internal/nginx/manager.go:561-574 | No line makes the pattern capture `http2`, although the table lists it. |
| Resplit.ResplitFixedPoint | api/internal/nginx/manager.go:571-607 | Without vertical tabs, splitting the location part again gives an empty server part and the same location part. |
| Resplit.ResplitIff | api/internal/nginx/manager.go:571-607 | For every text: it does so if and only if the first line of the input that is neither blank nor server-only, trimmed in front, and behind as well if only such lines follow, does not read as a server-only directive. |
| Resplit.VerticalTabExample | api/internal/nginx/manager.go:571-607 | A text with a vertical tab for which it does not. |
| Resplit.Http2Example | api/internal/nginx/manager.go:561-561 | `http2 on;` gives an empty server part and stays the location part. |
| AtomicWrite.Directory.WriteFileAtomic | api/internal/nginx/manager.go:104-153 | The method, with its deferred cleanup, goes through exactly the states of the trace. |
| AtomicWrite.NeverPartial | api/internal/nginx/manager.go:104-153 | After every system call and at every length of the growing temporary file, on every path, a reader of the target sees the whole old state or the whole new text, and no other file changes. |
| AtomicWrite.FinalDirectory | api/internal/nginx/manager.go:104-153 | Success leaves the new text and nothing else; failure changes no file but the temporary one. |
| AtomicWrite.TempLeftBehind | api/internal/nginx/manager.go:118-150 | The temporary file is left behind exactly if setting its mode or renaming it fails, or if an earlier failure is followed by a failed removal. |
| AtomicWrite.TempLeftExample | api/internal/nginx/manager.go:140-150 | A rename that fails, with the new text left under the temporary name. |
| Manager.Manager.ExecuteWithLock | api/internal/nginx/manager.go:157-172 | A context over before or just after taking the lock changes nothing and keeps no lock; otherwise the operation runs from start to end and the lock is freed. |
| Manager.Manager.TestAndReloadNginx | api/internal/nginx/manager.go:176-188 | Test, then reload, or neither. |
| Manager.Manager.GenerateConfigAndReload | api/internal/nginx/manager.go:193-262 | Does what its script says, including both rollbacks, for every environment. |
| Manager.Manager.GenerateConfigAndReloadWithCleanup | api/internal/nginx/manager.go:273-334 | The same for a host whose file name changes. |
| Manager.Manager.RemoveConfigAndReload | api/internal/nginx/manager.go:337-351 | The same for removing a host. |
| Manager.Manager.GenerateHostWAFConfigAndReload | api/internal/nginx/manager.go:678-713 | The same for a firewall update. |
| Manager.Manager.GenerateFilterSubscriptionConfigs | api/internal/nginx/filter_subscription_config.go:100-130 | The same for a filter update, which tests without reloading. |
| Manager.Manager.WriteBannedIPs | api/internal/nginx/banned_ips.go:12-50 | The same for banned addresses, without a rollback. |
| Manager.Manager.EnsureFilterSubscriptionFiles | api/internal/nginx/filter_subscription_config.go:15-38 | Startup creates exactly the filter files that are missing and stops at the first failure. |
| Successes.SucceedsIff | api/internal/nginx/manager.go:176-188 | An operation succeeds if and only if its files could be prepared, the test accepts the disk and, except for filter updates and plain tests, the reload works. |
| Successes.EverythingWorks | api/internal/nginx/manager.go:193-351 | Where file operations and nginx work and every configuration is accepted, every operation succeeds. |
| Successes.SkippingNginx | api/internal/nginx/manager.go:176-180 | A manager told to skip nginx neither tests nor reloads: what was prepared is final. |
| Successes.UpdateLands | api/internal/nginx/manager.go:193-262 | After a successful host update the main file, the firewall file and the cloud include hold exactly what was rendered, or are gone, and no other file has changed. |
| Successes.SameNameIsFinal | api/internal/nginx/manager.go:273-334 | A change of name without a change of file name has no rollback: once prepared, the new files stay whatever nginx says. |
| Successes.WafLands | api/internal/nginx/manager.go:678-713 | A successful firewall update leaves the new text in its file, and every other file as it was. |
| Successes.FiltersLand | api/internal/nginx/filter_subscription_config.go:100-130 | A successful filter update leaves each text in its own file. |
| Successes.TestsTouchNothing | api/internal/nginx/manager.go:176-188 | A test, or a test and reload on their own, touches no file, whatever its outcome. |
| Successes.PlaceholdersLand | api/internal/nginx/filter_subscription_config.go:15-38 | With file operations that work, startup puts each missing filter file's own placeholder in place and leaves existing ones alone. |
| Successes.FirstPlaceholderFails | api/internal/nginx/filter_subscription_config.go:21-26 | If the first placeholder cannot be written, startup fails and leaves the second file as it is. |
| TransactionSteps.TestedOnce | api/internal/nginx/manager.go:176-188 | Every operation that was prepared is tested exactly once, on the disk it prepared. |
| Transactions.GenerateRollsBack | api/internal/nginx/manager.go:216-258 | After a refused update the main file is as before exactly if it was absent, or could be read and was not empty or the new text is empty; the firewall file exactly if it was absent, could be read and was not empty, could be read and the new text is empty (firewall enabled), or could not be removed (disabled); only the cloud include keeps what the update made of it, and every other file is untouched. |
| Transactions.AfterRefusal | api/internal/nginx/manager.go:216-258 | The text each of the host's three files holds after a refused update. |
| Transactions.RunningAfterRefusal | api/internal/nginx/manager.go:176-188 | After any refused operation nginx runs what it ran before, unless the test passed and the reload took place although reported as failed: then the refused files. |
| Transactions.EmptyBackupExample | api/internal/nginx/manager.go:234-243 | A refused update over an empty main file, which keeps the refused text. |
| Transactions.RefusedUpdateChangesNothing | api/internal/nginx/manager.go:193-262 | With such backups and a cloud include that already matched, the whole disk is as before. |
| Transactions.SuccessIsRunning | api/internal/nginx/manager.go:193-351 | When a host update, a change of name, a removal, a firewall update, a ban or a plain reload reports success, nginx runs exactly what is on the disk, and it passed the test. |
| Transactions.RenameKeepsOne | api/internal/nginx/manager.go:273-334 | With file operations that work, the one test never sees the old and new file side by side, and exactly one is left, the new file on success, the old one with its old text otherwise, unless it had none; the firewall file is not put back. |
| Transactions.RenameTested | api/internal/nginx/manager.go:273-312 | Whatever file operations fail on the way to the test: it is run once, with the new file in place, and with the old one beside it exactly if that was there and its removal failed. |
| Transactions.BothFilesExample | api/internal/nginx/manager.go:300-312 | A change of name tested with both files on the disk. |
| Transactions.RenameLeaves | api/internal/nginx/manager.go:273-334 | What is left of the two files and of the firewall file, whatever failed before the test: refused with a backup that counts, the old file alone; otherwise the new file, and the old one if its removal failed. |
| Transactions.WafRollsBack | api/internal/nginx/manager.go:678-713 | A refused firewall update restores the disk exactly if the file was absent, or could be read and was not empty or the new text is empty. |
| Transactions.FiltersRollBack | api/internal/nginx/filter_subscription_config.go:117-148 | After a refused filter update each file has its old text if it was there and could be read, empty or not, and the new one otherwise; none is removed. |
| Transactions.FilterWriteFails | api/internal/nginx/filter_subscription_config.go:110-116 | If the second filter file cannot be written the first is put back. |
| Transactions.FiltersHalt | api/internal/nginx/filter_subscription_config.go:108-116 | The exact disk after any filter update that fails before its test, even if putting the first file back fails. |
| Transactions.FiltersNeverReload | api/internal/nginx/filter_subscription_config.go:100-130 | A filter update never changes what nginx runs. |
| Transactions.BannedIsFinal | api/internal/nginx/banned_ips.go:12-50 | The banned list stays as written whatever the test says. |
| Transactions.RemovalIsFinal | api/internal/nginx/manager.go:609-635 | A removal is not undone either. |
| Transactions.RemovalLeaves | api/internal/nginx/manager.go:609-635 | The exact disk a removal leaves, whichever of its steps fail and whatever nginx says. |
| Transactions.WafWriteFails | api/internal/nginx/manager.go:216-230 | If the firewall file is what fails, the new main file stays on the disk, untested. |
| Transactions.UpdateHalts | api/internal/nginx/manager.go:216-230 | Every update, renaming or not, that fails before its test: reported as failed, no test, nothing new running, and the exact disk; the main file is as before if and only if it was not reached, could not be written, or had the new text, and the firewall file always is. |
| Transactions.HaltedChangesNothing | api/internal/nginx/manager.go:460-510 | The whole disk is then as before if and only if each write that came before the failing one changed nothing. |
| ScriptFacts.OperationStaysWithin | api/internal/nginx/manager.go:193-351 | However it goes, an operation changes no file outside its own. |
| Protocol.MutualExclusion | api/internal/nginx/manager.go:157-172 | In every interleaving, exactly the holder of the lock is at work. |
| Protocol.AlwaysTested | api/internal/nginx/manager.go:176-188 | In every interleaving, what nginx runs is the first configuration or a snapshot that passed the test, with nothing at all between that test and its reload. |
| Protocol.Serializable | api/internal/nginx/manager.go:157-172 | Every interleaving amounts to the operations one at a time in lock order: same files, same running configuration, same log. |
| Protocol.CancelledCallsDoNothing | api/internal/nginx/manager.go:157-172 | A cancelled call leaves everything as it was and the lock free. |
| Protocol.LateCancelFreesLock | api/internal/nginx/manager.go:165-169 | So does a context found over after the lock was taken, at any point of a run. |
| Protocol.HolderFinishes | api/internal/nginx/manager.go:163-172 | Whoever holds the lock completes the operation and frees it in finitely many of its own steps. |
| Protocol.FilterFilesPersist | api/internal/nginx/filter_subscription_config.go:15-38 | Once startup has made them, both filter files are there at every instant of every run, whatever fails. |
| Protocol.EnsureKeepsExisting | api/internal/nginx/filter_subscription_config.go:15-38 | Startup leaves existing files alone. |
| Guarantees.RefusedUpdateIsInvisible | api/internal/nginx/manager.go:193-262 | Any refused update of any interleaving leaves the disk as it found it, given backups that count. |
| Guarantees.SuccessIsLive | api/internal/nginx/manager.go:176-188 | When one of these operations has succeeded in any interleaving, nginx runs exactly what is on the disk. |
| Guarantees.OperationSpan | api/internal/nginx/manager.go:157-172 | Every operation of every interleaving that is over has a start and an end between which the world changed exactly as if it had run alone. |
| Guarantees.HoldsOfEveryOperation | api/internal/nginx/manager.go:157-172 | So whatever relation holds between start and end of an operation run alone holds of every operation of every interleaving. |
| Guarantees.CallGoesThrough | api/internal/nginx/manager.go:157-172 | A call that finds the lock free goes through: finitely many steps of that client carry its operation out, record it and free the lock. |
| IncludeFiles.BannedIPs | api/internal/nginx/banned_ips.go:22-35 | The loop writes one line for each address, or the placeholder. |
| IncludeFiles.BannedReadsBack | api/internal/nginx/banned_ips.go:22-35 | Reading the file gives exactly the banned addresses if and only if each is on one line; the placeholder bans no one. |
| IncludeFiles.EntryLines | api/internal/nginx/banned_ips.go:22-35 | The line of a banned address, a cloud range, a filtered address and a filtered agent, each with its value. |
| IncludeFiles.CloudIPsInclude | api/internal/nginx/cloud_ips.go:12-45 | One line for each range; no ranges, no file. |
| IncludeFiles.CloudReadsBack | api/internal/nginx/cloud_ips.go:28-36 | Reading the file gives exactly the ranges if and only if each is on one line. |
| IncludeFiles.FilterSubscriptionIPs | api/internal/nginx/filter_subscription_config.go:46-66 | One line for each entry. |
| IncludeFiles.FilterIpsReadBack | api/internal/nginx/filter_subscription_config.go:46-66 | Reading the file gives exactly the entries if and only if each is on one line. |
| IncludeFiles.FilterSubscriptionUAs | api/internal/nginx/filter_subscription_config.go:74-94 | The map block with one line for each agent. |
| IncludeFiles.MapLines | api/internal/nginx/filter_subscription_config.go:82-88 | The map sets `$filter_sub_ua_blocked` from the agent, 0 unless listed. |
| IncludeFiles.FilterUasReadBack | api/internal/nginx/filter_subscription_config.go:74-94 | Reading the file gives exactly the agents if and only if each is on one line; the default line is none of them. |
| Waf.MergeExclusions | api/internal/handler/waf_global.go:294-322 | The two loops compute the host's entries, unchanged and first, then the globals not covered by them. |
| Waf.GetMergedWAFExclusions | api/internal/handler/settings_restore_helpers.go:246-292 | With both fetches successful, the same list; otherwise what could be fetched. |
| Waf.MergedExcludes | api/internal/handler/waf_global.go:294-322 | The merged list excludes a rule exactly if one of the lists does, and no global entry repeats a rule of the host. |
| Waf.MergedContents | api/internal/handler/waf_global.go:294-322 | The merged list is the host's, followed by one entry for each global rule that the host does not list, with its number, category, description, author and date, and its reason marked as global. |
| Waf.UncoveredConcat | api/internal/handler/waf_global.go:294-322 | The globals come in their order. |
| Waf.MergeTwice | api/internal/handler/waf_global.go:294-322 | Merging the same globals again changes nothing. |
| Waf.MergedDistinct | api/internal/handler/waf_global.go:294-322 | Lists without repeated rules merge into one without. |
| Waf.GenerateHostWAFConfig | api/internal/nginx/waf_config.go:70-118 | Mode, paranoia level and threshold are in range, as requested where that is possible and the defaults elsewhere; the rules handed to the template are those of the list. |
| Waf.BuildTables | api/internal/handler/waf.go:50-78 | The lookup tables hold exactly the rules of the two lists. |
| Waf.ParseRulesFromFile | api/internal/handler/waf_parser.go:135-215 | The loop with its seen-set shows the declared rules, each where it is first declared. |
| RuleLines.CommentDeclaresNothing | api/internal/handler/waf_parser.go:150-154 | A commented line declares no rule, whatever number is in it; nor does a blank one. |
| RuleLines.OtherLineDeclares | api/internal/handler/waf_parser.go:150-159 | Any other line declares the number found in it. |
| RuleLines.ContinuedLineIsJoined | api/internal/handler/waf_parser.go:145-148 | Lines continued with a backslash are joined by a space before the file is cut into lines, with and without a carriage return, wherever they are. |
| RuleLines.NothingToJoin | api/internal/handler/waf_parser.go:145-148 | Without a backslash the lines are those of the file. |
| RuleLines.DeclaredIsRead | api/internal/handler/waf_parser.go:62-62 | `id` in any case, a gap of colons and white space, a quote or none, and six digits are read as that number. |
| RuleLines.ReadIsDeclared | api/internal/handler/waf_parser.go:62-62 | And a number is read only where a text begins so. |
| Waf.IdIsFound | api/internal/handler/waf_parser.go:62-62 | A rule number after `id:`, quoted or not, is found wherever it stands, if none can be read before it. |
| Waf.FoundIdIsLeftmost | api/internal/handler/waf_parser.go:156-164 | The number found in a line is that of the first place where one can be read, for every line. |
| Waf.QuotedActionId | api/internal/handler/waf_parser.go:62-62 | The number of a quoted `SecAction` line is found in spite of the letter i in its name. |
| Waf.FoundIdFits | api/internal/handler/waf_parser.go:156-164 | A number that is found has at most six digits, so converting it never fails. |
| Waf.EachRuleOnce | api/internal/handler/waf_parser.go:141-172 | Every declared rule is shown, and only once. |
| Waf.ShownDisabledIffRemoved | api/internal/handler/waf_parser.go:190-211 | A rule is shown as disabled exactly if the list handed to the host's file holds it, with the entries that did it. |
| WafFile.FileReads | api/internal/nginx/waf_config.go:14-58 | For every list and whatever its texts hold: read line by line, the generated file removes the rules of its list, in order, each after the directives that stand on the second and later lines of its own texts, and after those in the allowed addresses. |
| WafFile.ReadsAsListedIff | api/internal/nginx/waf_config.go:14-58 | The file reads as its list if and only if no text has such a line. |
| WafFile.RemovedReadBack | api/internal/nginx/waf_config.go:14-58 | In particular if every text is on one line. |
| WafFile.RemovedIff | api/internal/nginx/waf_config.go:44-51 | The file removes a rule if and only if the host's list or the global one excludes it, or a text has such a line for it. |
| WafFile.RemovedIffExcluded | api/internal/nginx/waf_config.go:44-51 | In particular, with every text on one line, if and only if one of the lists excludes it. |
| WafFile.ShownAgainstFile | api/internal/handler/waf_parser.go:190-211 | A rule shown as disabled is removed by the file; one shown as enabled is removed exactly if a text has such a line for it. |
| WafFile.StrayExample | api/internal/handler/waf.go:219-241 | A reason with a second line, which removes a rule that the list does not exclude. |
| WafSettings.LevelReads | api/internal/nginx/waf_config.go:33-34 | Whatever the texts hold, the paranoia level is the first value read for it; others can come only from line breaks in addresses and texts. |
| WafSettings.LimitsRead | api/internal/nginx/waf_config.go:36-37 | The same for the threshold, which is the inbound and the outbound one. |
| WafSettings.ModeReads | api/internal/nginx/waf_config.go:53-54 | The engine mode is the last value read for it. |
| WafSettings.AddressesRead | api/internal/nginx/waf_config.go:39-42 | The allowed addresses are read as listed if and only if none has a line break. |
| WafSettings.SettingsText | api/internal/nginx/waf_config.go:34-41 | The directives these values are read from, piece by piece. |
| WafFile.IntTextInjective | api/internal/nginx/waf_config.go:49-49 | Different rule numbers are written differently. |
| TokenUsage.SortNewestFirst | api/internal/handler/audit_log.go:173-182 | The exchange sort in place leaves the same records, newest first. |
| TokenUsage.Paginate | api/internal/handler/audit_log.go:184-194 | A page is full unless it runs past the end, and holds the records from its offset on. |
| TokenUsage.PagesEnd | api/internal/handler/audit_log.go:184-194 | Past the end, and only there, a page of positive size is empty. |
| TokenUsage.PagesCoverList | api/internal/handler/audit_log.go:184-194 | For every positive limit, the pages one after the other are the whole list. |

## Left out

- GlobPattern.ToRegexPattern: counts the 500-byte cut in characters, and its white space is that of ASCII, because strings are sequences of characters throughout; letter case is that of ASCII too.
- User-written regular expressions are an unknown relation between expression and value, given twice, with and without regard to letter case. Only the expressions the compiler writes itself are read; `AgentMeaning` assumes of the engine that it honours them.
- AgentMeaning.AgentListedIff: is about globs without a backslash, because `GlobWords.GroupKeepsValue` shows that the engine gets another expression exactly if there is one.
- The text of the templates: emitted programs are data. nginx's reading of strings and words is modelled for the expressions put into them (`NginxText`), not for literal values, and what nginx makes of a configuration broken by them is not followed. In nginx `$` also matches before a final line feed; the model's anchored alternatives do not.
- `net.ParseCIDR` is a parameter; the block results are about IPv4. IPv6 blocks are converted as the code does, without a meaning.
- Which addresses the lines of an access list allow: `Challenge` takes the outcome, and whether any condition is enough, as parameters. Rate limits, path blocking, ModSecurity itself, caching, TLS and upstream balancing. The values of `$banned_ip`, `$blocked_cloud`, `$trusted_ip`, `$filter_sub_ua_blocked` and the country code are inputs.
- The server-level program is not run again for the authorisation subrequest; the API sees the variables as the main request left them.
- The token store behind `ValidateToken` is a parameter, and so is the client address it may look at.
- Callers that write files without the lock or reload without a test (the geo and redirect handlers, restore, the default server, and `ReloadNginx` on its own) are outside the protocol.
- Reloading is one step: nginx runs the new snapshot or the old one. A reload that timed out may have taken place.
- Temporary files, directories and file modes appear only in `AtomicWrite`; in the protocol a write is one step that happens or not, as proved there.
- What a host's main configuration contains is a parameter of the operation, including the fallback to plain HTTP while certificate files are missing.
- The wording of comment lines in generated files.
- The reader of the firewall file knows the directive only as the file writes it, at the start of a line with its number after one space; ModSecurity's continued lines and other white space are not modelled.
- Descriptions and category names in the rule browser.
- Waf.GetMergedWAFExclusions: the fetches are parameters, because the repositories are not modelled.
- Transactions.RenameKeepsOne: assumes that every file operation works; `Transactions.RenameTested` and `Transactions.RenameLeaves` say what happens when they do not.
