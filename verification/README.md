# Zeolite engine model

A Dafny model of the parts of the Zeolite browser-side proxy engine that hold state, encode or budget
something, with proofs of what they promise. Inputs that come from elsewhere are parameters: the clock, the
MAC, UTF-8 validity, parsed URLs, the public suffix list, the tag readers of the two scanners.

| part | modules |
|---|---|
| route codec | `Base64Url`, `RouteTokens`, `Routes`, `RouteKeys`, `QueryText`, `QueryHandle`, `QueryRoutes` |
| cookie jar | `UriText`, `CookieRules`, `CookieStore`, `CookieProfiles`, `CookieEviction`, `CookieAdmission`, `CookieRuns`, `CookieHeader`, `CookieJar`, `CookieImport`, `CookieHost` |
| downloads | `Downloads`, `DownloadSteps`, `DownloadRuns`, `DownloadProofs`, `DownloadBudget`, `DownloadPromises`, `DownloadResume`, `DownloadTracker` |
| relay and delivery | `RelayQueue`, `RelayRuns`, `RelayCredit`, `RelayReader`, `RelayDispatch`, `RelaySafety`, `RelayRules`, `RelayChannel`, `Delivery`, `UpstreamFetch` |
| body spool | `BodySpool` |
| transport body | `Framing`, `BodyPump`, `StreamResponse` |
| data files and report | `Kdl`, `KdlCursor`, `KdlText`, `Doctor` |
| scanners and splice | `Strings`, `Tags`, `ImportmapScanner`, `SriScanner`, `SplicePoint` |

Code that changes fields step by step is a class or a method with loops (`CookieJar`, `ProfileTable`,
`DownloadTracker`, `RelayReader`, `RelayFetch`, `SpoolCounters`, `StreamResponse`, `Cursor`, the two `Scanner`s,
`RouteKeyStore`, `RouteCodec`), each tied to functions on plain states; the results over whole runs are
proved about those functions. A step is the code between two awaits, and a run is any sequence of steps that
can happen.

What the proofs found out about the code:

- The recovery scan's gate (app/src/codec.ts:1080-1083) reads raw bytes, while strict decoding drops a leading
  byte order mark: a token whose payload opens with the mark opens on its own and is lost by the scan.
  `Routes.GateLosesExactly` says when, by the minted payload, and `Routes.MarkWitness` that it happens.
- A truncated body can look complete: the close-delimited check (app/src/libcurl-transport-vendored.ts:616-622)
  reads the whole header text, interim responses included, and passes when any length line is zero
  (`BodyPump.TruncationLooksComplete`, `Framing.PassesWronglyExactly`). The other way round it takes every coding
  for a framed body, so one without chunked at the end, which the close ends in RFC 9112 section 6.3, reads as cut
  off (`Framing.ZippedFails`, `Framing.FailsWronglyExactly`).
- Of several fetches that wait on a dead relay port the stale probe lets one go: it clears the shared port, and
  the other probes then take the cleared port for a newer registration (app/src/relayfetch.ts:427-429), so those
  fetches wait for their header deadline (`RelayRules.OneProbePerPort`, `RelayRules.SecondFetchParks`).
- A resumed download ends done with whatever the answer carried, an error page included: no status but 206 and
  416 is told apart, and no size is compared (`DownloadProofs.ErrorPageEndsDone`,
  `DownloadProofs.FinishedResumeIsWhole`).
- A save (app/src/routekey.ts:113-126) does not carry a lone pre-history key over, and saving a key that is not
  16 bytes long clears the history (`RouteKeys.LoneKeyDropped`, `RouteKeys.KeptBySave`); the comparison with the
  stored first key never holds, since a stored record is read back as a fresh copy.
- The path half of a query route comes back altered exactly when its leading slashes are followed by `%2F`
  (`QueryText.EscapeIsExact`, `QueryRoutes.CyclesKeepThePath`); a search that is one empty part is gone after the
  first parse (`QueryRoutes.CyclesNeverStack`).
- The HttpOnly guard of a script's cookie write looks at the earliest copy only, so an HttpOnly copy in another
  bucket is collapsed (`CookieAdmission.ScriptSparesHttpOnly`, `CookieImport.ScriptStoresAfterMerge`); admissions
  alone never produce such a jar.
- When 200 downloads are live the one evicted is the new one (`DownloadProofs.NewestEvicted`); the comment at
  app/src/downloads.ts:243-245 says the ring runs over instead.
- Reloading a stored partial checks no budget, and that is the one way past it (`DownloadBudget.BudgetExactly`,
  `DownloadBudget.ReloadExceeds`).
- A crediting peer with chunks of 512 bytes can trip the frame bound within its grant, with 513 it cannot
  (`RelayCredit.SmallChunksTrip`, `RelayCredit.CreditingPeerNeverTrips`).
- `props["__proto__"]` in a data file sets no property unless `__proto__=#null` came before it (`Kdl.DocumentGuards`).
- A retry that finds its caller timed out reports that the request was definitely not delivered, although the first
  call may have delivered it (app/src/transport.ts:404-407): `UpstreamFetch.StaleEvidenceExactly`,
  `UpstreamFetch.StaleEvidence`.
- The splice point answers 0 for a head that stops at a lone `<` (`SplicePoint.StableExactly`).

## Model

| member | source | states |
|---|---|---|
| Base64Url.DecodeIffEncode | app/src/codec.ts:106-126 | The canonical decoder accepts a text if and only if it is the encoding of some byte string, and then answers exactly that byte string (RFC 4648 sections 3.5 and 5) |
| Base64Url.B64uDecode | app/src/codec.ts:106-126 | The loop over a 32-bit accumulator that is never masked and wraps computes that decoder, refusals included |
| Base64Url.B64uDecodeLenient | app/src/codec.ts:133-150 | The same loop without the length and trailing-bit checks computes the lenient decoder |
| Base64Url.B64uEncode | app/src/codec.ts:91-104 | The three-byte loop with its short last group writes the encoding the decoder inverts |
| Base64Url.Absorb | app/src/codec.ts:114-122 | One iteration: the bits that overflow the word are never among those still needed, and the byte it emits is the right one |
| Base64Url.DecodeLenientPrefix | app/src/codec.ts:133-150 | Decoding a shorter prefix of a text yields a prefix of the bytes, the fact that lets one decode serve every candidate length |
| Base64Url.GroupIsAWord | app/src/codec.ts:91-104 | A group of four sextets is the three bytes as one 24-bit word, highest first (RFC 4648 section 4) |
| Base64Url.AlphabetIsTheTable | app/src/codec.ts:91-104 | The alphabet is table 2 of RFC 4648 section 5, and the lookup is its inverse |
| RouteTokens.PayloadOfToken | app/src/codec.ts:296-341 | Opening a minted token under its key gives back exactly the minted bytes as strict text |
| RouteTokens.PayloadOnlyOfToken | app/src/codec.ts:311-341 | Conversely, whatever the MAC accepts is the token minted for that very plaintext under that key |
| RouteTokens.MessagesDiffer | app/src/codec.ts:275-304 | The two halves of a token's IV are the MACs of two messages, each block of eight mask bytes the MAC of another, and all of these messages are pairwise different: no MAC answer serves twice in a token |
| RouteTokens.HttpUrlMeaning | app/src/codec.ts:345-352 | The destinations a keyed route may carry are the texts that open with http:// or https:// |
| RouteTokens.BomIsTheMark | app/src/codec.ts:151-151 | The three bytes that strict decoding drops are the UTF-8 of U+FEFF |
| RouteTokens.MintToken | app/src/codec.ts:296-304 | Filling the buffer byte by byte yields lead byte, IV and masked payload |
| RouteTokens.MacEquals | app/src/codec.ts:288-293 | Folding all sixteen differences decides equality of the recomputed IV |
| RouteTokens.OpenToken | app/src/codec.ts:311-341 | The decode with its per-block keystream cache answers what decrypting each byte would, or nothing |
| RouteTokens.PrefixIsCandidate | app/src/codec.ts:1070-1110 | For every key and prefix length, taking the prefix as a token of its own equals reading the candidate off the one decrypted body |
| RouteTokens.ScanBody | app/src/codec.ts:1092-1108 | The per-length scan answers the shortest prefix that opens as a token |
| RouteTokens.RecoverTail | app/src/codec.ts:1063-1113 | The whole scan over keys and lengths, with its limits and its gate, equals trying every prefix under every key that the gate does not lose |
| Routes.RecoverPath | app/src/codec.ts:1063-1113 | Cutting the tail out of a path and scanning it, against the same specification |
| Routes.GateLosesNothing | app/src/codec.ts:1080-1083 | When no key decrypts the run to a byte order mark first, the fast scan answers exactly what the slow one does |
| Routes.GateLosesExactly | app/src/codec.ts:1080-1083 | A minted token with text behind it is lost by the gate if and only if its payload opens with a byte order mark: without the mark it is found whatever the older keys are, with it the answer is the one of the older keys alone, and none when they open nothing |
| Routes.FirstOpenerDecides | app/src/codec.ts:1072-1090 | In a key list the first key that opens a prefix decides: when it is unmarked the fast and the slow scan agree, when it is marked the fast scan goes on with the older keys |
| Routes.MarkWitness | app/src/codec.ts:1080-1083 | Such a tail exists: a token whose payload opens with a byte order mark is opened by the standalone decode and refused by the scan |
| Routes.RecoverUndoesAppend | app/src/codec.ts:1063-1113 | Minting a token and appending any plain text is undone whenever no newer key and no shorter prefix passes the MAC |
| Routes.RouteRoundTrip | app/src/codec.ts:353-361 | Every http(s) destination survives minting and decoding, with a key or without one |
| Routes.QueryIsCut | app/src/codec.ts:996-1038 | A query or a fragment behind a route does not change what it decodes to |
| Routes.LegacyNeverKeyed | app/src/codec.ts:1017-1038 | A plain http(s) tail of any length is never taken for a keyed token |
| Routes.LegacyRouteDecodes | app/src/codec.ts:1017-1038 | A legacy route decodes under every later key history |
| Routes.RouteDecodesUnder | app/src/codec.ts:1017-1038 | A route minted under a key that is i-th in the history decodes as long as no newer key's MAC accepts it |
| RouteKeys.RouteKeyStore.SaveRouteKey | app/src/routekey.ts:113-126 | The list update: the key goes in front of the usable stored keys, the list is cut to sixteen, a malformed key clears it |
| RouteKeys.RouteKeyStore.LoadRouteHistory | app/src/routekey.ts:93-110 | Which keys a load gives: the usable ones of the list, or the lone pre-history key |
| RouteKeys.KeptBySave | app/src/routekey.ts:113-126 | Exactly which keys decode after a save: the new one and the fifteen newest usable of an existing list |
| RouteKeys.LoneKeyDropped | app/src/routekey.ts:93-126 | A key stored before there was a history decodes until the first save and not after it |
| RouteKeys.HistoryAfterSaves | app/src/routekey.ts:113-126 | For any store, after any number of saves the history is the sixteen newest of the saved keys and those carried over, newest first |
| RouteKeys.RouteSurvivesSaves | app/src/routekey.ts:93-126 | For any store, a route minted under the i-th key decodes to its destination after fewer than 16 - i saves, if no newer MAC accepts it, exactly when there was a history record or nothing was saved |
| RouteKeys.RouteCodec.SetRouteKeys | app/src/codec.ts:170-188 | Installing a history keeps the canonical 16-byte keys in order and mints under the first |
| RouteKeys.RouteCodec.DecodePath | app/src/codec.ts:1017-1038 | The decode loop over the installed keys, against the pure decoder |
| QueryText.SplitJoin | app/src/codec.ts:838-871 | Splitting a joined search gives back the very parts |
| QueryText.JoinSplit | app/src/codec.ts:838-871 | Joining the parts of a split gives back the very search |
| QueryText.EscapeIsExact | app/src/codec.ts:905-916 | Escape then restore returns the path if and only if its leading slashes are not followed by a spelled %2F |
| QueryText.EscapedOpensOnce | app/src/codec.ts:905-909 | An escaped path never opens with two slashes |
| QueryHandle.EngineOriginIsTimeless | app/src/codec.ts:796-808 | Whether a part is an engine token does not depend on the clock |
| QueryHandle.LiveOrExpired | app/src/codec.ts:498-531 | A handle that reads back is live up to its expiry and expired from the next moment on, never both and never neither, and names the same destination either way |
| QueryHandle.DecodedIsHttp | app/src/codec.ts:464-497 | Whatever handle the keys open, only an http(s) destination is read out of it |
| QueryHandle.EnginePathsAre | app/src/codec.ts:774-785 | The paths that no query route may have, listed: the engine's own files, its prefix, and the six reserved openings |
| QueryHandle.MintedInfo | app/src/codec.ts:430-497 | A fresh handle decodes under the minting key to the origin, root label and expiry it was minted for |
| QueryRoutes.ExactlyOneToken | app/src/codec.ts:927-975 | A committed search carries exactly one engine token, behind the destination's own parts in their order, whatever tokens it carried before |
| QueryRoutes.DecodeOfBuilt | app/src/codec.ts:817-881 | Decoding a live committed route returns the origin, the restored path and every non-engine part byte for byte in order |
| QueryRoutes.BuiltDecodesUntilExpiry | app/src/codec.ts:817-881 | Every committed route decodes if and only if the clock is not past the expiry its handle was minted with |
| QueryRoutes.DecodesExactly | app/src/codec.ts:817-881 | A search decodes if and only if its path is not the engine's own and one of its parts is a token that reads back as an http(s) origin with an expiry not yet passed; the first such part gives origin and host root |
| QueryRoutes.CyclesNeverStack | app/src/codec.ts:817-975 | Any number of decode and re-mint cycles, each under a key history of its own and for any path, keeps the origin and what the histories leave of the parts, and every further mint carries one engine token |
| QueryRoutes.OneHistorySettles | app/src/codec.ts:817-975 | Under one key history any number of cycles leaves what the first one leaves: origin, site parts, and the path where its leading slashes are not followed by a spelled one |
| QueryRoutes.PartStaysExactly | app/src/codec.ts:838-871 | A part stays through the cycles if and only if no history of theirs opens it |
| QueryRoutes.OrphanIsASitePart | app/src/codec.ts:796-808 | A token that no key of the history accepts any more is kept like a part of the site's own |
| QueryRoutes.CyclesKeepThePath | app/src/codec.ts:905-916 | The path comes back unchanged from any number of cycles unless its leading slashes are followed by a spelled %2F, and from one cycle exactly then |
| QueryRoutes.DecodeQueryHandle | app/src/codec.ts:817-881 | The part-by-part loop computes that decoder, and answers if and only if the path is not the engine's own and some part names an origin that is live at that time |
| QueryRoutes.BuildQueryHandleUrl | app/src/codec.ts:927-975 | The mint computes the committed route, or refuses |
| UriText.EncodeComponentInjective | app/src/cookies.ts:263-266 | The percent encoding used in namespaces maps no two strings to one |
| UriText.LengthsAddUp | app/src/cookies.ts:713-717 | The byte size of two texts in a row is the sum of theirs |
| UriText.LengthOfOne | app/src/cookies.ts:713-717 | A character takes one to four bytes by its code point (RFC 3629 section 3) |
| CookieRules.DomainMatchIsRfc | app/src/cookies.ts:563-569 | The domain match is the one RFC 6265 section 5.1.3 describes |
| CookieRules.DomainMatchIsTransitive | app/src/cookies.ts:567-569 | A domain that scopes a domain of the host scopes the host |
| CookieRules.LooksLikeIpMeaning | app/src/cookies.ts:563-565 | The hosts that are addresses: four runs of digits with dots between |
| CookieRules.LoopbackMeaning | app/src/cookies.ts:550-557 | The hosts that may set Secure cookies over plain http: localhost, the names below it, the block 127 and the IPv6 loopback |
| CookieRules.PathMatchIsRfc | app/src/cookies.ts:617-620 | For absolute request paths the path match is the one of RFC 6265 section 5.1.4, both ways |
| CookieRules.DefaultPathComesBack | app/src/cookies.ts:611-620 | A cookie set without a Path goes back to its own URL and to every sibling of it |
| CookieRules.DefaultPathMeaning | app/src/cookies.ts:611-615 | The default path is the request's path up to its last slash and without it, or the root (RFC 6265 section 5.1.4) |
| CookieRules.SpelledLasts | app/src/cookies.ts:944-956 | A record with Max-Age n is live until 1000 n milliseconds after it was stored, whatever Expires says; without Max-Age until its Expires; with neither for ever; and it is a deletion exactly when that time is over at once |
| CookieRules.SpelledFields | app/src/cookies.ts:914-1047 | What is stored carries the response's own fields, with the Domain and Path given, or the host and the directory of the request |
| CookieRules.KeepsTheAdmissible | app/src/cookies.ts:820-961 | Whatever the order of the gates: a record is stored if and only if what it spells is permitted, fits 4096 bytes and is not over at once, it retires an identity if and only if what it spells is permitted and over at once, and what is stored is exactly what is spelled and live exactly as long as the record says |
| CookieRules.RefusedForCause | app/src/cookies.ts:895-966 | A refusal names a reason that holds of the record |
| CookieRules.RetiresTheNamed | app/src/cookies.ts:820-966 | A deletion is over at once, is permitted, and names the identity the record spells, on a host it covers |
| CookieRules.AttachesIsRfc | app/src/cookies.ts:1107-1142 | A cookie attaches to a request with an absolute path if and only if RFC 6265 section 5.4 sends it: host, path and Secure, and under the policy the schemeful SameSite rule |
| CookieProfiles.NamespacesDistinct | app/src/cookies.ts:263-266 | Two (root, profile) pairs share a namespace if and only if they are the same profile; the default one is shared by all roots |
| CookieProfiles.KeyHasOneNamespace | app/src/cookies.ts:368-376 | A bucket key lies in the namespace it was built for and in no other |
| CookieProfiles.NamespacesDisjoint | app/src/cookies.ts:374-376 | No key at all lies in two namespaces |
| CookieProfiles.OtherProfilesKeep | app/src/cookies.ts:374-380 | A change confined to one profile leaves every other profile exactly what it held |
| CookieEviction.DoomedIsCheapest | app/src/cookies.ts:763-771 | Sorting the unprotected candidates and taking the first ones picks exactly the excess, none sorting later than an unprotected survivor |
| CookieEviction.RankMeaning | app/src/cookies.ts:726-730 | The order of eviction in terms of the cookies: expiry, session cookies as if they expired with the greatest safe integer, then creation |
| CookieEviction.PassesFit | app/src/cookies.ts:739-785 | After the three passes only live cookies are left, at most 50 per stored Domain and 3000 in all, and the protected one survives |
| CookieEviction.EvictedSortNoLater | app/src/cookies.ts:763-785 | In both cap passes each evicted cookie expires no later than every unprotected survivor of its pass, session cookies last, and of those that expire together was created no later |
| CookieEviction.PassesKeepAll | app/src/cookies.ts:723-785 | A profile within its limits and free of expired cookies loses nothing |
| CookieAdmission.PlacedHolds | app/src/cookies.ts:1015-1064 | Placing swaps every copy of the identity in the profile for the one fresh cookie and touches nothing else |
| CookieAdmission.FreshIsEarliest | app/src/cookies.ts:1036-1047 | The fresh cookie keeps the earliest creation time among the copies, or the present when there were none |
| CookieAdmission.StoreMeetsItsPromises | app/src/cookies.ts:1046-1068 | After every store: one copy, limits met, only live cookies, survivors plus removed are what was there with the copies swapped, other profiles untouched |
| CookieAdmission.RetireMeetsItsPromises | app/src/cookies.ts:966-1007 | A server deletion leaves no copy of the identity; a script's leaves exactly the HttpOnly ones; nothing else goes |
| CookieAdmission.ScriptSparesHttpOnly | app/src/cookies.ts:1030-1056 | A script's store removes no HttpOnly cookie but by eviction if and only if no copy of the identity is HttpOnly, since the guard reads the earliest copy only |
| CookieAdmission.LaterCopyLost | app/src/cookies.ts:1030-1056 | In the merged jar whose later copy is HttpOnly the guard passes, and at any time a script's store replaces that copy, whatever the sweep removes |
| CookieImport.ScriptStoresAfterMerge | app/src/cookies.ts:1660-1704 | Two records merge to that jar under every rule, and a script's store at time 3 is then admitted and the HttpOnly copy gone |
| CookieAdmission.OneCopyGuards | app/src/cookies.ts:1030-1033 | Where a profile holds one copy per identity that guard is enough |
| CookieRuns.EveryRunIsSound | app/src/cookies.ts:812-1074 | Over every run of admissions, purges, clearings and profile switches: no bucket repeats an identity, every profile is within its limits with one copy per identity, and every cookie covers the host that set it |
| CookieHeader.HeaderOfEveryRun | app/src/cookies.ts:1107-1142 | Over every run of admissions, the header line written from the last jar carries exactly the profile's live cookies that RFC 6265 section 5.4 sends: a Secure one to https only, the path one of its own, the Domain covering the requesting host and a host that set the cookie, host-only ones for the host that set them; under the policy no strict cookie to a request from elsewhere, and a lax or undeclared one on a navigation only; no identity twice, longer paths first |
| CookieHeader.PairsJoin | app/src/cookies.ts:1140-1142 | The header's text: name, equals sign, value, and between two pairs a semicolon and a blank; nothing for an empty line |
| CookieHeader.SortedLists | app/src/cookies.ts:1140-1141 | The sorted list holds exactly the matched cookies, each once, longest path first, then earliest created |
| CookieJar.CookieJar.FilterBuckets | app/src/cookies.ts:739-746 | The filter loop over the buckets removes exactly what it names and deletes emptied buckets |
| CookieJar.CookieJar.Evict | app/src/cookies.ts:763-775 | One eviction: sort, pick, group by bucket, drop |
| CookieJar.CookieJar.SweepJarLimits | app/src/cookies.ts:723-785 | The sweep as it runs, pass by pass, meets the three-pass relation |
| CookieJar.CookieJar.FindCanonical | app/src/cookies.ts:1012-1027 | The nested search answers the earliest-created copy wherever it lives in the profile |
| CookieJar.CookieJar.Place | app/src/cookies.ts:1048-1064 | Collapse, replace in place or append, against the placed jar |
| CookieJar.CookieJar.Retire | app/src/cookies.ts:966-1006 | The deletion branch, its removed set and the cookie its reply names |
| CookieJar.CookieJar.Admit | app/src/cookies.ts:812-1074 | One Set-Cookie from its parsed attributes on: the outcome and the whole new jar in every branch, confined to its profile; what is admitted carries the record's fields and is live exactly as long as Max-Age, or else Expires, says; and where a profile holds one copy per identity a script's write removes no HttpOnly cookie but by eviction |
| CookieJar.CookieJar.ApplySetCookie | app/src/cookies.ts:1093-1101 | Every Set-Cookie of a response keeps the run's invariants; the unbound namespace admits nothing |
| CookieJar.CookieJar.CookieHeaderFor | app/src/cookies.ts:1107-1142 | The header is exactly the live, in-profile cookies that match host, Secure, path and SameSite, in order; expired cookies leave every profile |
| CookieJar.CookieJar.ClearNamespace | app/src/cookies.ts:378-380 | Clearing a session profile empties it and touches no other |
| CookieJar.CookieJar.ClearScope | app/src/cookies.ts:1407-1455 | Clearing a profile or one origin's bucket removes exactly that and counts it |
| CookieImport.MergedKeeps | app/src/cookies.ts:1660-1704 | A merge keeps every bucket free of repeats and every other profile as it was |
| CookieImport.MergeListHeld | app/src/cookies.ts:1670-1696 | Identity by identity a merge settles what was there against the imports in turn, and nothing else counts |
| CookieImport.SettleMeaning | app/src/cookies.ts:1689-1693 | Each conflict rule does what its name says |
| CookieImport.JarMerge | app/src/cookies.ts:1660-1704 | The import loops and the counts they report |
| CookieHost.ProfileTable.SetJarProfile | app/src/cookies.ts:487-512 | Switching a profile makes it the client's active one, empties the session profile it leaves and changes no other; a name of 1 to 64 characters without the separator is taken as it is, and anything else asks for the default |
| CookieHost.ProfileTable.FailsClosed | app/src/cookies.ts:248-266 | A client that is marked unclaimed, or whose root lost its profile while a session profile is active or the bindings could not be restored, never rides the default jar or any selected profile; nor does a client without a root before the host selects a profile in that last case |
| CookieHost.ProfileTable.RidesTheDefault | app/src/cookies.ts:248-266 | Without a session profile anywhere every unmarked client rides the one durable jar |
| DownloadProofs.BufferIsWhatCame | app/src/downloads.ts:215-618 | Over every run, whatever the streams and the answers carry, a resumable entry's buffer is exactly what the entry was given since it last started, counted by received, but between a storage read and the moment that takes its length |
| DownloadProofs.BufferIsPrefixOfSource | app/src/downloads.ts:215-618 | When everything an entry is given continues its source where the entry stands, the buffer is the first received bytes of that source |
| DownloadProofs.DoneHoldsTheAnswer | app/src/downloads.ts:540-609 | A pump that ends marks the entry done if and only if its buffer is still there, and the buffer is then what the answer left in place, the bytes in hand for a 206 and none for any other status, followed by the answer's body |
| DownloadProofs.FinishedResumeIsWhole | app/src/downloads.ts:540-609 | An entry that ends done holds the source if and only if the answer's body was the rest after the bytes in hand (206) or a full copy (any other status) |
| DownloadProofs.ErrorPageEndsDone | app/src/downloads.ts:551-609 | A run in which a 404 answer to a resume ends done, with the error page for its bytes |
| DownloadResume.BufferFromTheWrap | app/src/downloads.ts:227-353 | Over every run a download in the ring whose announced size is unknown or at most 64 MiB holds an empty buffer once its stream is wrapped, and any other holds none |
| DownloadResume.LosesOnly | app/src/downloads.ts:200-677 | In one step a buffer is lost only to its entry's own cap, to the budget, to its end, to a cancel, an eviction, an answer that frees it or a restart |
| DownloadResume.BigIsNeverHeld | app/src/downloads.ts:227-353 | Past 64 MiB a download never holds a buffer and never can be resumed |
| DownloadResume.FailedStreamResumes | app/src/downloads.ts:345-418 | Over every run, a download whose stream breaks after steps that leave its buffer alone is paused with every byte it was sent in hand, and can be resumed, if and only if its size was unknown or at most 64 MiB and a byte was sent; otherwise it has failed |
| DownloadResume.LoneDownload | app/src/downloads.ts:227-418 | There is such a run for any size and any chunks within the budget and 64 MiB: begin, wrap, the chunks, the break |
| DownloadResume.EndedStreamIsDone | app/src/downloads.ts:382-393 | A stream that ends leaves its entry done with nothing held, and touches no other |
| DownloadResume.RestartInterrupts | app/src/downloads.ts:310-362 | After a restart the ring is what it was, what was active has failed and nothing streams or is held |
| DownloadProofs.RingNeverOverflows | app/src/downloads.ts:227-258 | The ring never exceeds 200 entries and never repeats one |
| DownloadRuns.AlwaysAnIdleOne | app/src/downloads.ts:246-255 | There is always an idle entry to evict; when every other slot is live it is the new entry itself |
| DownloadProofs.NewestEvicted | app/src/downloads.ts:243-255 | A run with 200 live downloads, whose next one is evicted at once |
| DownloadBudget.EvictsOnlyIdle | app/src/downloads.ts:246-255 | What is evicted has no stream and no resume, is the first such entry, is the only one to go and takes its buffer with it |
| DownloadBudget.BudgetHolds | app/src/downloads.ts:200-224 | Without reloads from storage the buffered bytes never exceed the budget, over every run |
| DownloadBudget.BudgetExactly | app/src/downloads.ts:200-224 | The buffers stay within the budget all along a run if and only if every reload from storage finds room for what it brings back |
| DownloadBudget.ReloadExceeds | app/src/downloads.ts:660-677 | A run under a budget of two bytes in which a reload after a restart makes it three |
| DownloadBudget.IdleGoesFirst | app/src/downloads.ts:200-210 | An active entry loses its buffer to another's chunk only once no idle entry holds one |
| DownloadBudget.OwnChunkFits | app/src/downloads.ts:215-224 | With a budget of at least the per-entry cap an entry never loses its own buffer because its own chunk does not fit the budget |
| DownloadTracker.DownloadTracker.BufferedBytes | app/src/downloads.ts:176-180 | The loop sums what every buffer holds |
| DownloadTracker.DownloadTracker.AdmitBytes | app/src/downloads.ts:200-210 | The shedding loop, its order and its answer |
| DownloadTracker.DownloadTracker.BufferChunk | app/src/downloads.ts:215-224 | Per-entry cap, then budget, then append |
| DownloadTracker.DownloadTracker.Begin | app/src/downloads.ts:227-258 | Registration under a new number and eviction: the entry is resumable if and only if its size is unknown or at most 64 MiB, the ring stays within 200 and every buffer what its entry was given |
| DownloadTracker.DownloadTracker.Transform | app/src/downloads.ts:371-381 | A chunk is forwarded unchanged, counted and buffered while the entry is active; every buffer stays what its entry was given and the buffers stay within the budget |
| DownloadTracker.DownloadTracker.Fail | app/src/downloads.ts:394-418 | A counted stream that fails leaves its entry paused exactly when bytes are in hand, which are then all it was given, and failed otherwise; nothing is freed and no other entry changes |
| DownloadTracker.DownloadTracker.Pause | app/src/downloads.ts:459-487 | After a pause no stream flows and nothing is freed; what was active is paused and resumable exactly when its bytes are in hand; the answer says whether a stream was cut or the entry is paused |
| DownloadTracker.DownloadTracker.Cancel | app/src/downloads.ts:426-451 | After a cancel no stream flows; what was active is cancelled and its bytes are freed, and nothing else changes |
| DownloadTracker.DownloadTracker.StartResume | app/src/downloads.ts:494-530 | A resume is accepted exactly when the entry is known, paused, resumable and not already resuming; with bytes in hand it asks for the range right behind them |
| DownloadTracker.DownloadTracker.PartialLoaded | app/src/downloads.ts:660-677 | Stored bytes become the buffer and all that the entry was given, not counted yet |
| DownloadTracker.DownloadTracker.TakePartial | app/src/downloads.ts:518-531 | After a storage read the resume goes on exactly when the bytes are still there, and asks for the range right behind them |
| DownloadTracker.DownloadTracker.PartialMissing | app/src/downloads.ts:521-528 | Without stored bytes the resume starts from zero and asks for everything |
| DownloadTracker.DownloadTracker.Answer | app/src/downloads.ts:531-582 | An answer is drained exactly when the buffer is still there and the answer is no 416 and no 206 from elsewhere, onto the bytes in hand for a 206 and onto nothing otherwise; a 416 fails the entry and frees its bytes, any other refusal pauses it |
| DownloadTracker.DownloadTracker.PumpRead | app/src/downloads.ts:586-593 | A read is counted, and a buffer that is still there afterwards is all that its entry was given |
| DownloadTracker.DownloadTracker.PumpFinish | app/src/downloads.ts:595-609 | The end of a pump is done exactly when the buffer in hand is all that the entry was given, and an error otherwise |
| DownloadTracker.DownloadTracker.Interrupted | app/src/downloads.ts:560-617 | A request or a pump that fails pauses its entry with the bytes it has |
| RelayRuns.AnyPeer | app/src/relayfetch.ts:310-385 | Whatever the peer sends, the queue stays within 4 MiB and 4096 frames, no malformed chunk is accepted, a reader that is through leaves no waiter, and a body that closes cleanly is exactly the received chunks in order |
| RelayCredit.CreditIsConserved | app/src/relayfetch.ts:405-533 | While a response is taken in, unspent credit, chunks in transit, queued bytes, the chunk in hand and grants in transit add up to the initial grant; afterwards they only shrink |
| RelayCredit.ByteBoundNeverTrips | app/src/relayfetch.ts:319-334 | For a crediting peer the byte bound never trips |
| RelayCredit.CreditingPeerNeverTrips | app/src/relayfetch.ts:319-334 | Nor does the frame bound, for one head, one final frame and chunks of at least 513 bytes |
| RelayCredit.SmallChunksTrip | app/src/relayfetch.ts:319-334 | With chunks of 512 bytes it does: a run of a peer that keeps to its credit and trips the frame bound with its final frame |
| RelayReader.RelayReader.OnMessage | app/src/relayfetch.ts:319-339 | The waiter: ignore, trip or queue, then wake; it trips exactly at a malformed chunk or past 4 MiB or 4096 frames, tells the peer to stop, accepts nothing more and leaves the reader an error |
| RelayReader.RelayReader.OnAbort | app/src/relayfetch.ts:340-351 | The abort handler |
| RelayReader.RelayReader.Pull | app/src/relayfetch.ts:363-372 | A pull takes the next frame or waits |
| RelayReader.RelayReader.Turn | app/src/relayfetch.ts:506-533 | The reader's turn: enqueue and grant, close, or fail |
| RelayRules.NeverSentTwice | app/src/relayfetch.ts:280-587 | Over every run of any number of fetches, a non-idempotent fetch answers null only when the port never took its request frame or the first frame that the peer sent for it proved non-delivery |
| RelayRules.FallbackExactly | app/src/relayfetch.ts:454-587 | And exactly when: at its return the caller is not gone, and it found no port, or its body cannot ride one, or that proof settled its race |
| RelayRules.IdempotentNeverStuck | app/src/relayfetch.ts:403-422 | An idempotent fetch ends in an error if and only if its caller is gone and it has no response: the deadline resolves the race before it rejects the reader |
| RelayRules.FlagIsConservative | app/src/relayfetch.ts:373-391 | The dispatch flag is up at the end if and only if the port took the request without a proof coming back, or threw at it; when it is down the request is provably unsent |
| RelayRules.LateSignalsDoNotMatter | app/src/relayfetch.ts:423-457 | Whatever comes after the race is settled changes neither what settled it nor, later, the reply |
| RelayRules.NoWaiterLeft | app/src/relayfetch.ts:352-391 | A fetch that is done without a response, after a port that threw included, or whose body is over has no waiter left |
| RelayRules.BodyIsWhole | app/src/relayfetch.ts:505-533 | In a run of any number of fetches a body that closes cleanly is all of its fetch's chunks in order |
| RelayRules.OneProbePerPort | app/src/relayfetch.ts:424-443 | Over every run the stale probes let at most one fetch of a port go |
| RelayRules.LetGoByADeadLookup | app/src/relayfetch.ts:424-443 | Over every run a fetch is let go by its probe only when its own lookup found no host page: a live one keeps the full deadline |
| RelayRules.SecondFetchParks | app/src/relayfetch.ts:424-443 | A run of two fetches on a dead port: the first probe drops the port, and the second fetch is left to its header deadline |
| RelayChannel.RelayFetch.constructor | app/src/relayfetch.ts:286-351 | A call is dispatched, with a waiter, exactly when a port is registered, the body fits and the caller is there; otherwise it is over with neither |
| RelayChannel.RelayFetch.PostRequest | app/src/relayfetch.ts:373-391 | A port that throws at the request frame ends the fetch with the flag up and no waiter left |
| RelayChannel.RelayFetch.PostCredit | app/src/relayfetch.ts:383-391 | A port that throws at the credit frame does too, with the request handed over |
| RelayChannel.RelayFetch.OnMessage | app/src/relayfetch.ts:319-339 | A frame settles an open race, with itself or with the relay's own error, and never a settled one |
| RelayChannel.RelayFetch.OnDeadline | app/src/relayfetch.ts:403-422 | An open race is settled by the deadline, not by the abort it causes |
| RelayChannel.RelayFetch.OnProbe | app/src/relayfetch.ts:424-428 | The probe's timer settles nothing; it looks for a host page unless a newer registration owns the channel |
| RelayChannel.RelayFetch.OnLookup | app/src/relayfetch.ts:424-443 | Only when no host page is left and the port is still the shared one, the port is dropped for everyone and an open race is settled |
| RelayChannel.RelayFetch.OnAbort | app/src/relayfetch.ts:340-351 | The caller's abort rejects an open race and leaves a settled one as it is |
| RelayChannel.RelayFetch.AfterRace | app/src/relayfetch.ts:454-554 | The flag goes down exactly for a first frame that proved non-delivery; when no head settled the race and nobody aborted, an idempotent or provably undelivered fetch answers null and any other throws that its delivery is unknown; without a response no waiter is left |
| RelayChannel.RelayFetch.Answer | app/src/relayfetch.ts:557-587 | Null to a non-idempotent caller only for a request not handed over or proved undelivered; an error to an idempotent one only when it is gone |
| UpstreamFetch.NeverDeliveredTwice | app/src/request.ts:1090-1201 | Over every run of the relay and whatever the transports bring, a request that is not idempotent or whose body cannot be sent again is possibly delivered by the last transport it is handed to only: every one before it is a relay that provably did not send it |
| UpstreamFetch.UnsafeIsCareful | app/src/request.ts:1090-1201 | Such a request is handed on only by relays that answered null, and an error that claims non-delivery comes only after those |
| UpstreamFetch.CalledTwiceExactly | app/src/transport.ts:399-589 | A client is called a second time if and only if its first failure is of the connecting or stalling kind, nobody has gone away, and the request is idempotent with a replayable body: evidence of non-delivery never opens the retry gate |
| UpstreamFetch.RetryJudgesTheCause | app/src/transport.ts:343-346 | The kind of a failure is judged by the error inside its wrappers, up to seven of them before the call's own |
| UpstreamFetch.AnsweredByTheLast | app/src/request.ts:1090-1201 | A request is answered if and only if the last transport it was handed to responded |
| UpstreamFetch.MainIsReached | app/src/request.ts:1090-1201 | The main client is called whenever the relays before it passed, it starts and the caller is there |
| UpstreamFetch.CoolingRelayComesFirst | app/src/transport.ts:470-525 | While the socket cools down the relay is asked first, and its response or its error is final |
| UpstreamFetch.RuleRelayComesFirst | app/src/request.ts:1125-1142 | A relay rule's relay is asked first, and its response or its error is final |
| UpstreamFetch.SecondClientHandsOver | app/src/request.ts:1148-1201 | A failed second client is followed by the default path if and only if nobody has gone away, the body can be sent again, and the method is idempotent or that client was never called |
| UpstreamFetch.StaleEvidenceExactly | app/src/transport.ts:399-409 | A client that was called ends in an error that claims non-delivery if and only if the retry finds the caller gone for a reason other than an abort |
| UpstreamFetch.StaleEvidence | app/src/transport.ts:399-409 | Such a course: a stalled first call, then a caller that times out during the reset |
| BodySpool.EveryPointAddsUp | app/src/bodyspool.ts:143-200 | At every suspension point of any interleaving: in-flight is the sum of open reservations, live the sum of unreleased handles, both within the budget, every spool within its cap |
| BodySpool.AllOverIsZero | app/src/bodyspool.ts:143-200 | Once everything has failed or been released both counters are zero |
| BodySpool.TotalIsWhatWasRead | app/src/bodyspool.ts:164-190 | A spool's total is the sum of the chunks read for it, over every run |
| BodySpool.SpoolCounters.Read | app/src/bodyspool.ts:164-179 | One chunk: accepted if and only if it fits the cap and the budget, rolled back otherwise |
| BodySpool.SpoolCounters.Finish | app/src/bodyspool.ts:180-190 | The hand-over moves a spool's bytes from in-flight to live |
| BodySpool.SpoolCounters.Release | app/src/bodyspool.ts:193-198 | Release is idempotent |
| Framing.FieldIsALine | app/src/libcurl-transport-vendored.ts:616-622 | The substring search in the raw header text finds exactly the lines that carry the field |
| Framing.CloseDelimitedMeaning | app/src/libcurl-transport-vendored.ts:616-622 | The check line by line: it passes if and only if no line of the whole header text declares a coding, and no line a length or some line a zero length |
| Framing.CheckIsExact | app/src/libcurl-transport-vendored.ts:616-622 | The check agrees with the framing of the final header block (RFC 9112 section 6.3, codings included) if and only if that block decides it: a coding it declares ends in chunked, and no line outside it outweighs it |
| Framing.PassesWronglyExactly | app/src/libcurl-transport-vendored.ts:616-622 | The check passes although the close does not end the final block's body if and only if no line declares a coding, that block a length, and some line a zero one |
| Framing.FailsWronglyExactly | app/src/libcurl-transport-vendored.ts:616-622 | It fails although the close ends that body if and only if the block's last coding is not chunked, or the block declares neither coding nor length but zero and another line does |
| Framing.ZippedFails | app/src/libcurl-transport-vendored.ts:616-622 | A body with a gzip coding that the close ends, and the check takes for cut off |
| Framing.ZeroOutweighs | app/src/libcurl-transport-vendored.ts:616-622 | An interim block with a zero length before a final one of nine passes the check |
| Framing.BodilessExactly | app/src/libcurl-transport-vendored.ts:537-556 | Header text completes an answer without a body if and only if its last complete block opens with a status line of 204 or 304, or of 200 and above when HEAD was asked |
| Framing.NoBlockNoAnswer | app/src/libcurl-transport-vendored.ts:537-545 | Without a complete block nothing surfaces on header text alone |
| BodyPump.PageSeesAPrefix | app/src/libcurl-transport-vendored.ts:470-612 | Over every run a page that was given the stream sees a prefix of what was received |
| BodyPump.WantsMoreExactly | app/src/libcurl-transport-vendored.ts:471-481 | The page's stream wants more exactly while it is readable and queues less than 64 KiB, or is errored |
| BodyPump.EndIsExact | app/src/libcurl-transport-vendored.ts:623-667 | Once a body-bearing response has surfaced, the end closes the body exactly for code 0 or for code 56 when the check passes, with everything received in it; any other code errors it |
| BodyPump.TruncationIsNeverClean | app/src/libcurl-transport-vendored.ts:623-667 | Over every run code 56 closes a surfaced body cleanly exactly when the final header block says that the close ends it, if and only if that block decides the check; it does so wrongly exactly for an uncoded text whose final block declares a length and some line a zero one; every other error code errors it |
| BodyPump.TruncationLooksComplete | app/src/libcurl-transport-vendored.ts:623-667 | The run in which one octet of a declared nine arrives before code 56 and the page reads a complete body |
| BodyPump.SurfacingEndIsWhole | app/src/libcurl-transport-vendored.ts:624-645 | A body that surfaces only at its end is whole |
| BodyPump.AbortIsNeverClean | app/src/libcurl-transport-vendored.ts:668-683 | An abort never leaves a surfaced body looking complete |
| StreamResponse.StreamResponse.FlushPending | app/src/libcurl-transport-vendored.ts:471-481 | Parked chunks move to an open stream oldest first, and stay parked only while the page is full |
| StreamResponse.StreamResponse.OnDataChunk | app/src/libcurl-transport-vendored.ts:589-612 | A chunk goes behind all earlier ones and straight to the page only when none is parked and there is room; the first one gives the page its response, or is lost when the headers callback throws; a stream that is over gets nothing more, and the transfer is told exactly when a stream with room refuses the chunk |
| StreamResponse.StreamResponse.OnHeaderText | app/src/libcurl-transport-vendored.ts:513-587 | Header text surfaces a response exactly when it completes a block that can have no body and one of the two callbacks succeeds; the body is then over and no chunk is touched |
| StreamResponse.StreamResponse.OnEndCode | app/src/libcurl-transport-vendored.ts:623-667 | A response that the page reads ends cleanly and whole for code 0, or for code 56 when the check passes, and with an error for any other code |
| StreamResponse.StreamResponse.OnAbortSignal | app/src/libcurl-transport-vendored.ts:668-683 | The page's abort errors a response it still reads, adds nothing to it and counts once |
| StreamResponse.StreamResponse.OnPageCancel | app/src/libcurl-transport-vendored.ts:491-500 | The page's cancel ends a readable stream empty and drops what was parked for it |
| KdlCursor.Parse | app/src/kdl.ts:270-280 | The parser ends on every input, succeeds only with nothing left, answers what the grammar says, whose readings the rows of KdlText state, and its line is 1 plus the newlines before where it stopped |
| KdlCursor.Cursor.CommentBody | app/src/kdl.ts:53-70 | Nested block comments, found closed or not |
| KdlCursor.Cursor.Space | app/src/kdl.ts:83-93 | The loop over white space, line comments and block comments, which KdlText shows to be nothing |
| KdlCursor.Cursor.String | app/src/kdl.ts:106-134 | A string with its escapes, or the problem at its place |
| KdlCursor.Cursor.Number | app/src/kdl.ts:136-170 | A number with sign, fraction and exponent, ending at a delimiter |
| KdlCursor.Cursor.Keyword | app/src/kdl.ts:175-203 | The three keywords, each ending at a delimiter |
| KdlCursor.Cursor.Entry | app/src/kdl.ts:209-233 | One argument or property |
| KdlCursor.Cursor.NodeStep | app/src/kdl.ts:237-255 | One turn of a node: an end, a block of children or an entry |
| KdlCursor.Cursor.Children | app/src/kdl.ts:258-266 | The nodes of a block |
| KdlText.DocumentReadsBack | app/src/kdl.ts:209-280 | Any document of nodes with arguments, properties, numbers, texts with any escapes, keywords and nested children, in any style of blanks, breaks, semicolons, line comments and nested block comments, parses to exactly the nodes it means |
| KdlText.RemarkIsNothing | app/src/kdl.ts:83-93 | A line comment in front of a document or of any list of nodes changes nothing of what is parsed |
| KdlText.RemarkEndsTheNode | app/src/kdl.ts:237-245 | A line comment behind a node's entries ends the node as a line break does |
| KdlText.BlockIsNothing | app/src/kdl.ts:53-93 | A closed block comment, with others inside it, changes nothing in front of a document nor in a gap inside a node |
| KdlText.ValueReads | app/src/kdl.ts:106-207 | Every spelling of a value, before anything that may follow one, is read as what it means: texts by their letters and escapes, numbers whole, keywords by value |
| KdlText.BrokenTextIsRefused | app/src/kdl.ts:106-134 | A text cut off by the end of the input or of its line, or by an unknown escape, is refused at that place |
| KdlText.BrokenNumberIsRefused | app/src/kdl.ts:136-170 | A number with a bare point, or one that runs into anything but a delimiter, is refused |
| KdlText.LongKeywordIsRefused | app/src/kdl.ts:175-203 | A keyword that runs into anything but a delimiter is refused |
| KdlText.StrayBraceIsRefused | app/src/kdl.ts:270-280 | A document followed by a closing brace that nothing opened is refused at that brace |
| KdlText.OpenCommentIsRefused | app/src/kdl.ts:53-70 | A block comment that is never closed refuses the document and the node it stands in |
| Kdl.DocumentGuards | app/src/kdl.ts:224-280 | In every document that parses, at any depth, a node has a property __proto__ only once its props object has lost its prototype |
| Doctor.ReportReadsBack | app/src/doctor.ts:355-365 | The engine's parser reads the engine's report back as one node whose properties and children are the sanitized fields in order |
| Doctor.LinesRead | app/src/doctor.ts:360-364 | The check lines read back as one child per check, in order, an empty list included |
| Doctor.QuotedReads | app/src/doctor.ts:356-357 | A sanitized, JSON-quoted value reads back as itself, whatever follows |
| Doctor.UnprintableAre | app/src/doctor.ts:350-357 | What is sanitized: the control characters of ASCII but for tab, newline, form feed and return |
| Doctor.DecimalDenotes | app/src/doctor.ts:359 | The printed capture time denotes the capture time |
| Tags.UnfinishedGrows | app/src/importmaps.ts:86-97 | An unfinished tag is all that has to be held between chunks |
| ImportmapScanner.ScanTwice | app/src/importmaps.ts:80-130 | Feeding a text in two parts scans what feeding it whole scans, for every hold-back of at least seven characters |
| ImportmapScanner.AnyTwoChunkings | app/src/importmaps.ts:80-130 | Any two chunkings give the same notes and final state, under the scan bound and with no held tag past the hold |
| ImportmapScanner.NotesAreTheBodies | app/src/importmaps.ts:80-130 | What is noted are the bodies between the map tags and the close tags after them, in document order, but for bodies over 256 KiB |
| ImportmapScanner.MapsAreNoted | app/src/importmaps.ts:80-130 | So however such a document is cut into chunks, its maps are noted, whole and in order |
| ImportmapScanner.FewerHeldMissTheTag | app/src/importmaps.ts:120-127 | With six characters held back or fewer a split close tag is missed |
| ImportmapScanner.Scanner.Take | app/src/importmaps.ts:82-130 | The feed method with its variables |
| SriScanner.AnyTwoChunkings | app/src/sri.ts:254-283 | The same for the integrity scan; only the count of characters fed after it was over can differ |
| SriScanner.PairsAreCapped | app/src/sri.ts:216-245 | Never more than 128 pairs, and none is ever dropped |
| SriScanner.NotesAreThePairs | app/src/sri.ts:216-245 | Every tag is looked at once, and below the cap the notes are exactly the pairs the tags yield, in order |
| SriScanner.PairsAreNoted | app/src/sri.ts:254-283 | However the document is cut into chunks |
| SriScanner.Scanner.Take | app/src/sri.ts:254-283 | The feed method with its variables |
| SplicePoint.StableExactly | app/src/pageload.ts:113-147 | An answer stands for every longer head if and only if what the hunt stopped at is not a lone < |
| SplicePoint.LeadMovesTheAnswer | app/src/pageload.ts:113-147 | Blanks, comments and processing instructions in front of a head shift the answer by their length and nothing else, the undecided and the zero answer included |
| SplicePoint.BlankIsPassed | app/src/pageload.ts:116-116 | A blank is such a lead |
| SplicePoint.CommentIsPassed | app/src/pageload.ts:116-123 | A comment up to the first place where it can close is such a lead |
| SplicePoint.InstructionIsPassed | app/src/pageload.ts:124-133 | So is a processing instruction up to its first > |
| SplicePoint.BehindTheDoctype | app/src/pageload.ts:134-138 | A doctype in any case is answered with the place right behind its > |
| SplicePoint.DeclarationIsZeroExactly | app/src/pageload.ts:134-146 | Any other declaration is answered 0 if and only if its word neither is nor can become doctype |
| SplicePoint.NoDoctypeIsZero | app/src/pageload.ts:139-146 | Text or an element's tag is answered 0 |
| SplicePoint.LoneOpeningMoves | app/src/pageload.ts:139-145 | A head that stops at a lone < was answered 0 and becomes a doctype with more text |
| SplicePoint.LoneOpeningExists | app/src/pageload.ts:139-145 | The exception is real |
| SplicePoint.InitSplicePoint | app/src/pageload.ts:113-147 | The hunt as a loop; at the end of the stream an undecided head is answered 0 |

## Left out

- Routes.GateLosesExactly: speaks of tails that begin with a minted token; for any other tail `FirstOpenerDecides` gives the agreement of the two scans, and what an older key makes of a lost token is left open, since it could by chance accept the same tail.
- RouteTokens.PayloadOfToken: SipHash is a function of key and message and UTF-8 validity a predicate; how hard a MAC is to forge is not modelled, so "no newer key accepts" stays a hypothesis of the results that need it.
- QueryHandle.MintedInfo: number printing, origin parsing and UTF-8 are assumed to behave as `PlatformOk` lists; a root label that opens with a byte order mark comes back without it.
- CookieJar.CookieJar.Admit: starts from parsed attributes; reading the header text, cookie dates and the HttpOnly stripping of script writes are not part of this model. Buckets are visited in any order, so ties of creation time are settled either way; object identity is a cookie's value in its bucket. Expiries are exact integers, not doubles.
- CookieRuns.EveryRunIsSound: speaks of jars built by admissions; `jarReplace` and `jarLoad` can put two cookies of one identity in a bucket, which later admissions leave there, and imports need not cover any host.
- CookieHost.ProfileTable.SetJarProfile: the stored profile snapshot, its restore, handle-based inheritance and pruning of clients are not modelled.
- DownloadProofs.BufferIsWhatCame: `clearHistory` is excluded; a restart keeps the entries as they are rather than as last persisted.
- DownloadProofs.BufferIsPrefixOfSource: is about runs whose chunks continue the source; the results before it in the table are about all others.
- DownloadBudget.BudgetHolds: excludes reloads from storage, which skip the budget check; `BudgetExactly` includes them.
- RelayRules.NeverSentTwice: every registration is a new port; what a peer says in its first frame is taken at its word; the lengths of the timers, the cancel frames to the peer, the wake-up broadcasts and WebSocket frames are not modelled.
- UpstreamFetch.NeverDeliveredTwice: each call of a client is one hop, whatever the client does inside; the policy match, the reset and its queueing, the stall window, load counters and the deadlines themselves are not modelled.
- RelayChannel.RelayFetch.OnMessage: an object is one fetch with its shared channel; what any number of them do together is proved about the steps in `RelayDispatch`.
- BodyPump.TruncationIsNeverClean: the transport's callbacks are taken in any order; what the wasm side does with an abort is not part of this model.
- KdlText.DocumentReadsBack: a document's gaps are all of one style, a property is not named `__proto__`, a node's children come last and in one block, and the words of a comment hold no comment mark outside its nested comments; what else the grammar reads or refuses is in `Kdl` and the rows of refusals.
- DownloadResume.FailedStreamResumes: is about streams whose own steps leave the buffer alone, as `FailsAtTheEnd` says step by step; what takes a buffer away is listed by `LosesOnly`.
- ImportmapScanner.NotesAreTheBodies: is about documents whose last tag is whole and whose maps are closed; other texts are covered by the laws about chunkings.
- CookieEviction.EvictedSortNoLater: a cookie that expires after the greatest safe integer of milliseconds goes behind the session cookies, as in the code.
- KdlCursor.Parse: numbers keep their spelling, messages their kind and line; conversion to doubles is left out.
- Doctor.ReportReadsBack: the capture time is a natural number printed in full, as every date is; text is a sequence of whole characters, so there are no lone surrogates.
- ImportmapScanner.AnyTwoChunkings: a character counts as one unit of text; which tags open a map, and what a noted body registers, are left out, as are the bounds' effects once they are reached.
- SriScanner.AnyTwoChunkings: what a tag yields is a parameter.
- Navigation-handle path tails and preload markers, control dispatch, devtools, error pages, ad blocking, fingerprint scripts, and the rest of the transport adapters.
- Import map resolution, policy and rule matching, small counters and rings.
- Storage engines, service worker events, timers, message ports, URL parsing and the public suffix list themselves.
