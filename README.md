# Funding providers and request gating of the plugin backend

This project models, in Dafny, the decision and bookkeeping logic of
`main.ts`, the HTTP handler of a small plugin backend for Lightning
payments. A signed-in user keeps a list of funding providers (LNbits or
OpenNode credential sets) in a per-user document with a default provider
type; the handler gates a fixed set of routes behind a session token,
dispatches on method and path, and, for plugin installation, derives the
plugin directory from a Git URL.

The model has five modules:

- `Wrappers` — `Option` and `Result`.
- `RepoName` — `getRepoName`. `GetRepoName` follows the regular
  expression `/\/([^\/]+?)(?:\.git)?$/` as the engine runs it: it tries
  start positions from the left, then the lazy group, then the greedy
  optional `.git`, then the end anchor. `RepoNameSpec` is the closed form:
  the text after the last `/`, with one trailing `.git` removed when
  something remains. They are proved equal for every string.
- `ProviderKeys` — `generateProviderKey`. The UUID is an input.
- `Funding` — the `Provider` records, the `UserDoc` document
  (`fundingProviders`, `defaultProvider`), what adding a provider and
  choosing a default do to a document, the invariant they keep
  (`Consistent`), and the class `UserStore`. `UserStore` holds the "users"
  collection as a `map<string, UserDoc>` and reads and merge-writes it in
  place.
- `Server` — the handler: the protected-route gate, the routing chain, the
  three funding routes that write, `GET /funding`, the provider selector,
  and the install route up to the point where it runs `git`.

A document that does not exist reads as an empty list with `""` as the
default. The code reads both fields only through `|| []` and `|| ""`, so
the model stores a field that was never written as its read default.

The handler's outside inputs are parameters (`Oracles`):
- the outcome of verifying the session token (a uid, or none when it
  throws);
- the two UUIDs from `crypto.randomUUID`;
- which document-store call throws, if any (`StoreFault`).

The value that `Number()` makes of the `providerIndex` field is part of the
`Request`.

The add routes write the list and then, for a first provider, the
default, as two separate merge writes. When the second one fails, the
document has a record but no default. `PartialAddInconsistent` shows that
this breaks `Consistent`. `Handle` keeps `Consistent` for every user
whenever no store call fails.

The repository name that `getRepoName` returns is one path segment without
`/`, but it may be `..` or `.`. For the URL `h/..` the plugin path is
`./plugins/..` (`InstallPathMayLeavePlugins`), and the install step at
main.ts:146-148 would remove that directory recursively. The model keeps the
code as written; it shows the case and does not correct it.

## Model

| member | source | states |
|---|---|---|
| `RepoName.GetRepoName` | main.ts:41-47 | a successful result is a non-empty string with no `/`; a failure is the "Invalid Git URL" error |
| `RepoName.LazyEnd` | main.ts:42 | the lazy group `[^\/]+?` followed by `(?:\.git)?$` ends after at least one character, within the string, and takes no `/` |
| `RepoName.Search` | main.ts:42 | the leftmost match starts right after a `/`, and its capture is non-empty and free of `/` |
| `RepoName.GetRepoNameIsLastSegment` | main.ts:41-47 | for every URL, the regular-expression result is the text after the last `/` with one trailing `.git` removed if something remains; the function throws exactly when there is no `/` or nothing follows the last one |
| `RepoName.RepoNameDefinedIff` | main.ts:41-47 | `getRepoName` succeeds if and only if the URL contains a `/` and does not end with one |
| `RepoName.RepoNameOfCloneUrl` | main.ts:42-44 | `h/o/r.git` gives `r` |
| `RepoName.RepoNameOfBareGit` | main.ts:42-44 | `h/.git` gives `.git`, because the lazy group must take a character |
| `RepoName.RepoNameOfDotDot` | main.ts:42-44 | `h/..` gives `..`: a single segment, but not necessarily a directory inside `./plugins` |
| `RepoName.RepoNameRefused` | main.ts:42-46 | a URL ending in `/` and a URL without `/` both throw "Invalid Git URL" |
| `ProviderKeys.GenerateProviderKey` | main.ts:51-54 | the key starts with the prefix and is followed by at most 10 characters, none of them `-`; it has exactly 10 once the UUID has 10 non-hyphen characters |
| `ProviderKeys.RemoveHyphens` | main.ts:52 | `replace(/-/g, "")`: the result has no `-` and is no longer than the input; `UuidKeyShape` pins it on the first eleven characters of a UUID |
| `ProviderKeys.UuidKeyShape` | main.ts:51-54 | for a UUID in 8-4-4-4-12 form, the key is the prefix, the first 8 digits and the first 2 of the second group: the prefix length plus 10 characters, all of the suffix hexadecimal |
| `ProviderKeys.InvoiceAndAdminKeysDiffer` | main.ts:387-388 | an invoice key (`p_ik_`) never equals an admin key (`p_ak_`), whatever the UUIDs; this follows from the prefixes alone and says nothing about keys of different records |
| `Funding.AddProvider` | main.ts:392-417 | an add appends exactly one record at the end and keeps the earlier ones in order; the default becomes the new record's type when the list was empty and is unchanged otherwise |
| `Funding.AddProviderConsistent` | main.ts:398-417 | an add keeps a document consistent: either no records and no default, or a default that is some record's type |
| `Funding.SetDefaultConsistent` | main.ts:501-506 | choosing a default keeps a document consistent |
| `Funding.SetDefaultOnlyChangesDefault` | main.ts:501-506 | choosing a default leaves the list unchanged, yields `lnbits` or `opennode`, and is idempotent |
| `Funding.SetDefault` | main.ts:501-506 | the default becomes the `provider` tag of the record at the chosen index, and the list is kept; `SetDefaultOnlyChangesDefault` adds that the tag is `lnbits` or `opennode` and the update is idempotent, and `SetDefaultConsistent` that the invariant is kept |
| `Funding.PartialAddInconsistent` | main.ts:408-417 | if the list write succeeds and the default write fails for a first provider, the document is left with a record and no default; both writes together keep it consistent |
| `Funding.FirstProviderWins` | main.ts:413-417 | starting from a missing document, any sequence of adds stores the records in order, and the default stays the first record's type |
| `Funding.AddAllAppends` | main.ts:398-417 | adds to a non-empty document append in order and never change the default |
| `Funding.UserStore.Get` | main.ts:393-395 | reads the user's document; a missing document reads as an empty list with `""` as the default |
| `Funding.UserStore.SetFundingProviders` | main.ts:408-410 | a merge write of `fundingProviders` replaces the list, keeps the default, and touches no other user |
| `Funding.UserStore.SetDefaultProvider` | main.ts:504-506 | a merge write of `defaultProvider` replaces the default, keeps the list, and touches no other user |
| `Server.Authenticate` | main.ts:72-95 | on a protected path, a missing or empty token or a failed verification means redirect to login; otherwise the request proceeds with the verified uid; an unprotected path proceeds with `uid = ""` |
| `Server.FundingRoutesProtected` | main.ts:72 | every route that uses the uid has a protected path |
| `Server.SelectSetup` | main.ts:353-368 | `lnbits` and `opennode` redirect with 302 to their own setup path, and only they do; anything else, including a missing field, gives 400 |
| `Server.InstallRequest` | main.ts:125-142 | installation goes ahead if and only if `gitUrl` is given and `getRepoName` succeeds; the plugin path is then `./plugins/` followed by `getRepoName(gitUrl)`, one non-empty segment without `/`; otherwise 400 |
| `Server.RouteOf` | main.ts:98-517 | the handler's method-and-path chain in source order: every pair in the fifteen-entry table `RouteTable` reaches exactly the route the table gives it, every other pair is unmatched, and every writing route is a protected `POST`; `Handle` proves that an unmatched pair gives 404 and that only the three writing routes change the store |
| `Server.LnbitsRecord` | main.ts:378-405 | the LNbits record carries the submitted `instanceUrl`, `invoiceKey` and `adminKey`, and its two keys are `generateProviderKey("p_ik_")` and `generateProviderKey("p_ak_")` of the two UUIDs (so `UuidKeyShape` gives each as the prefix plus 10 hexadecimal digits), which differ; `AddLnbits` proves it is the record appended |
| `Server.OpenNodeRecord` | main.ts:435-460 | the OpenNode record carries the submitted `invoiceKey` and `readApiKey`, and its two keys are `generateProviderKey("p_ik_")` and `generateProviderKey("p_ak_")` of the two UUIDs, which differ; `AddOpenNode` proves it is the record appended |
| `Server.InstallPathMayLeavePlugins` | main.ts:136-148 | the Git URL `h/..` passes both checks and yields the plugin path `./plugins/..`, which the install step would remove recursively before cloning |
| `Server.AppendProvider` | main.ts:391-425 | if every store call succeeds: redirect 302 to `/funding`, with the user's document replaced by the add; a failed read or list write: 500 and the store unchanged; a failed default write for a first provider: 500 with the list written and no default |
| `Server.AddLnbits` | main.ts:375-425 | a missing or empty `instanceUrl`, `invoiceKey` or `adminKey` gives 400 and the store unchanged; otherwise the LNbits record with the submitted fields and both generated keys is added as `AppendProvider` states |
| `Server.AddOpenNode` | main.ts:432-480 | a missing or empty `invoiceKey` or `readApiKey` gives 400 and the store unchanged; otherwise the OpenNode record is added as `AppendProvider` states |
| `Server.PostSetDefault` | main.ts:481-514 | NaN gives 400; an index outside `[0, length of fundingProviders)` gives 400 and changes nothing; an index in range sets the default to that record's type, keeps the list, and redirects 302 to `/funding`; store failures give 500 with nothing written |
| `Server.ShowFunding` | main.ts:327-346 | `GET /funding` shows the user's list and default, read with their defaults, or 500 when the read fails |
| `Server.Handle` | main.ts:63-517 | a gated request redirects to `/login` and changes nothing; an unmatched method and path gives 404; each page route gives its template and each route outside the model is delegated; only the three writing routes change the store, each as its route member states; the store stays consistent when no store call fails |

## Left out

- `services/opennodePaymentService.ts` and `services/lnbitsPaymentService.ts`: network clients that `main.ts` does not import. Their balance parsing uses floating point.
- `firebase.ts`: SDK setup only. The identity service's token check is an input, and the document store is the `UserStore` class.
- A provider-key index, header-based provider resolution and a payment façade: `main.ts` contains none of them. It only stores the two generated keys in the record. Uniqueness of generated keys across records is therefore not modelled; it rests on the randomness of the UUIDs, which are inputs here.
- `GET /` plugin listing (the `for await` loop over `./plugins`) and the install steps after the path is known (directory removal, `git clone`, the migration run): file-system and subprocess effects. They appear as `Delegated` and `InstallPlugin` responses.
- Signup, login and logout: calls to the identity service's REST API and cookie handling. They appear as `Delegated` responses.
- Template rendering: a rendered page is `Page(view)`, and `GET /funding` returns the data it would render.
- Redirect targets: the code builds absolute URLs from the request URL; the model keeps only the path.
- `crypto.randomUUID`: its output is an input.
- Concurrency: the lost update when two adds for one user interleave their read and write.
- `Number()` parsing of `providerIndex`: only NaN and integers are modelled. A fractional index in range makes the code throw and answer 500; that path is not modelled.
- Form values that are files rather than strings, and a `formData()` that throws before the route's `try` block.
- Logging to the console.
- `Server.Handle`: for the three writing routes, its contract states the outcome only for a complete form with every store call succeeding, and for set-default only for a numeric index. The route members `AddLnbits`, `AddOpenNode` and `PostSetDefault` state every case, and `Handle` calls them.
