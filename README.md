# Polkassembly: identity form, vote history, profile update and Gov1 notification tables

This project is a Dafny model of four pieces of Polkassembly's logic.

- **The on-chain identity form.**
  - It validates the four identity fields (display name, legal name, email, twitter) with `checkValue` and builds the `raw`/`none` identity-info record.
  - It decides whether the form is submittable (`okAll`) and prices the social bond, the gas and the total fee.
  - It picks the extrinsic to submit: a judgement request alone, or `batchAll[setIdentity, requestJudgement]`. A selected proxy can sign in the owner's place.
  - After a successful submission it stores the identity hash in the `identityForm` local-storage record.
  - The form is the class `IdentityForm.IdentityFormState`. Its fields are the component's React state plus the parent state it drives through callbacks.
  - The chain node is a `Chain` value whose answers the model leaves open: proxies, identity hash, partial fee. Each query may also fail (`None`).
- **The vote-history list.**
  - The sort order and the sort toggle, the referendum type of each query, and the empty-address short-circuit.
  - Fetching a page of votes, and adding delegation figures to one vote.
  - These live in the class `VotesHistory.VotesHistoryState`. Network answers are parameters, and every request sent is logged in a field.
- **The profile-update endpoint** (`AddProfile`).
  - The spec function `Handle` lists the checks in order: method, username, blacklist, JSON shape, token, user, username and email uniqueness, email validity. It then describes the profile written and the token issued.
  - The method `Handler` performs the same steps with early returns and a loop over the blacklist, and is proved equal to `Handle`.
  - Database lookups, the auth service, `isValidEmail` and the blacklist are the inputs in `Services`.
- **The Gov1 notification tables** (`Gov1Notification`). These are the seven option tables, `allGov1` and `titleMapper`, together with the consistency properties of the tables.

The JavaScript string operations the code relies on are in the module `Text`:
- `trim`, with ECMAScript's white-space and line-terminator set;
- `includes`, `startsWith` and `endsWith`;
- `toLowerCase`, restricted to ASCII letters.

Optional values (`null`/`undefined`) are `Wrappers.Option`.

`getProxies` clears the selected proxy only when the query answers; on no answer the list and the selection stay.

On the initial load, `handleInfo(true)` calls `getGasFee` from the closure of the render that called it. That closure still holds the previous `info` and `okAll`: on mount these are `{}` and `false`. `IdentityFormState.HandleInfo` therefore estimates gas against the old record and flag, as the code does.

## Model

| member | source | states |
|---|---|---|
| Text.ContainsIff | src/components/OnchainIdentity/IdentityForm.tsx:76-78 | `includes(s, p)` holds exactly when `p` occurs in `s` at some position |
| Text.ContainsChar | src/components/OnchainIdentity/IdentityForm.tsx:76-78 | a one-character substring is found exactly when the character is in the string |
| Text.EdgeIsContained | src/components/OnchainIdentity/IdentityForm.tsx:77-80 | a prefix or suffix is also a substring |
| Text.TrimStart | src/components/OnchainIdentity/IdentityForm.tsx:187-190 | the result is no longer than the input and starts with a non-white-space character |
| Text.TrimEnd | src/components/OnchainIdentity/IdentityForm.tsx:187-190 | the result is no longer than the input and ends with a non-white-space character |
| Text.TrimStartDrops | src/components/OnchainIdentity/IdentityForm.tsx:187-190 | trimming the start removes exactly a prefix of white space |
| Text.TrimEndDrops | src/components/OnchainIdentity/IdentityForm.tsx:187-190 | trimming the end removes exactly a suffix of white space |
| Text.Trim | src/components/OnchainIdentity/IdentityForm.tsx:187-190 | a trimmed value has no white space at either edge and is no longer than the input |
| Text.TrimIsSlice | src/components/OnchainIdentity/IdentityForm.tsx:187-190 | a trimmed value is a contiguous slice of the input, with only white space cut on both sides |
| Text.TrimIdempotent | src/components/OnchainIdentity/IdentityForm.tsx:187-190 | trimming twice is trimming once |
| Text.TrimmedEdges | src/components/OnchainIdentity/IdentityForm.tsx:187-190 | a trimmed value neither starts nor ends with a blank or a tab |
| Text.LowerChar | pages/api/v1/auth/actions/addProfile.ts:24 | upper-case ASCII letters map to their lower-case letters; every other character is kept |
| Text.ToLower | pages/api/v1/auth/actions/addProfile.ts:24 | lower-casing keeps the length and lower-cases each character in place |
| IdentityValidation.IncludesAllIff | src/components/OnchainIdentity/IdentityForm.tsx:76 | the `includes` fold holds exactly when the start value is true and every entry occurs in the value |
| IdentityValidation.IncludesSomeIff | src/components/OnchainIdentity/IdentityForm.tsx:78 | `excludes.some(includes)` holds exactly when some entry occurs in the value |
| IdentityValidation.StartsWithSomeIff | src/components/OnchainIdentity/IdentityForm.tsx:77 | `some(startsWith)` holds exactly when the value starts with some entry |
| IdentityValidation.EndsWithSomeIff | src/components/OnchainIdentity/IdentityForm.tsx:80 | `some(endsWith)` holds exactly when the value ends with some entry |
| IdentityValidation.CheckValueMeaning | src/components/OnchainIdentity/IdentityForm.tsx:62-83 | about `CheckValue`, the model of `checkValue`: an optional field always passes. A required field passes exactly when it is present, non-empty, at least `minLength` long, contains every required substring and none of the excluded ones, starts with a required prefix when any is given, and does not start or end with a forbidden one (blank and tab by default) |
| IdentityValidation.TrimmedNameOk | src/components/OnchainIdentity/IdentityForm.tsx:187-193 | every trimmed name passes the name check |
| IdentityValidation.OkEmailMeaning | src/components/OnchainIdentity/IdentityForm.tsx:194 | an email passes exactly when it is empty, or has 3 or more characters, an `@`, and no blank or tab |
| IdentityValidation.OkTwitterMeaning | src/components/OnchainIdentity/IdentityForm.tsx:196 | a twitter handle passes exactly when it is empty, or has 3 or more characters and no blank, tab or `/` |
| IdentityValidation.EmailExamples | src/components/OnchainIdentity/IdentityForm.tsx:194 | `ab@cd` passes the email check and `ab cd` fails it |
| IdentityForm.FieldData | src/components/OnchainIdentity/IdentityForm.tsx:212-215 | email, legal name and twitter are `raw` with their value exactly when valid and non-empty, otherwise `none` with null |
| IdentityForm.CountIsNewSocials | src/components/OnchainIdentity/IdentityForm.tsx:198-205 | about `CountSocials`, the model of the `okSocials` counter: `okSocials` is 1 plus the number of social inputs that are valid, filled in and differ from the verified value, so at most 3 |
| IdentityForm.BondPerNewSocial | src/components/OnchainIdentity/IdentityForm.tsx:199-221 | about `BondFee`, the model of the `bondFee` expression: the bond is `perSocialBondFee` times the size of the set of new social inputs (at most email and twitter). `okSocials` is 1 plus that size. An input is new when it is valid, non-empty and differs from the verified value |
| IdentityForm.BondMonotone | src/components/OnchainIdentity/IdentityForm.tsx:199-221 | making more social fields new never lowers the bond |
| IdentityForm.Evaluate | src/components/OnchainIdentity/IdentityForm.tsx:186-221 | `okSocials` is 1 plus the new social fields of the trimmed form. A submittable form's info has display, email and twitter `raw` |
| IdentityForm.TotalFee | src/components/OnchainIdentity/IdentityForm.tsx:123 | the total is gas plus bond plus registrar fee, plus the minimum deposit unless the identity is already verified or already set |
| IdentityForm.InfoCarriesForm | src/components/OnchainIdentity/IdentityForm.tsx:209-218 | about `BuildInfo`, the model of the `setInfo` record: the info record of a submittable form carries exactly the four trimmed values, with display, email and twitter `raw` |
| IdentityForm.DisplayAlwaysRaw | src/components/OnchainIdentity/IdentityForm.tsx:192-211 | about `BuildInfo`: the display field is always `raw`, and it carries null exactly when the trimmed display name is empty |
| IdentityForm.OkAllMeaning | src/components/OnchainIdentity/IdentityForm.tsx:192-218 | about `OkAll`, the model of the `okAll` expression: `okAll` holds exactly when the trimmed display name has 2 or more characters and the email and twitter meet their rules; the legal name plays no part |
| IdentityForm.Plan | src/components/OnchainIdentity/IdentityForm.tsx:274-282 | with `JudgementOnly`, the model of the condition of lines 257, 277 and 721: the plan is the bare judgement request exactly when twitter, email and display name were verified and nothing changed; otherwise it is `batchAll[setIdentity(info), requestJudgement]` |
| IdentityForm.PlanRequestsJudgement | src/components/OnchainIdentity/IdentityForm.tsx:276-282 | every plan ends with the judgement request to the chosen registrar with the registrar fee |
| IdentityForm.ResubmitVerified | src/components/OnchainIdentity/IdentityForm.tsx:233-257 | about `AllowSetIdentity`, the model of `handleAllowSetIdentity`, and `JudgementOnly`: resubmitting exactly the verified values asks only for a judgement and costs no bond |
| IdentityForm.GasEstimate | src/components/OnchainIdentity/IdentityForm.tsx:163-178 | no estimate when the api is not ready, when the form is not submittable outside the initial load, or when display name, email or twitter is empty. Otherwise the estimate is for `setIdentity(info)`: signed by the owner, or wrapped in a proxy call and signed by the proxy when one is selected and shown |
| IdentityForm.WithField | src/components/OnchainIdentity/IdentityForm.tsx:452-455 | the changed input holds the new value and the other three keep theirs |
| IdentityForm.KeysDistinct | src/components/OnchainIdentity/IdentityForm.tsx:455 | the four inputs are saved under four distinct local-storage keys |
| IdentityForm.StoredFor | src/components/OnchainIdentity/IdentityForm.tsx:554-556 | a name is stored as its trimmed string; a social is stored as its record with `value` set to the trimmed string and every other key kept |
| IdentityForm.EmptyDisplayNoEstimate | src/components/OnchainIdentity/IdentityForm.tsx:167-170 | an empty display name never reaches the chain and prices gas at zero |
| IdentityForm.SubmissionFor | src/components/OnchainIdentity/IdentityForm.tsx:272-327 | nothing is submitted exactly when the api is not ready, the form is not submittable or there is no registrar. Otherwise the owner submits the plan, with a proxy address exactly when a proxy is selected and shown |
| IdentityForm.Merge | src/components/OnchainIdentity/IdentityForm.tsx:139-151 | the stored record gains the given keys with their values; every other stored key keeps its value |
| IdentityForm.EnabledMeans | src/components/OnchainIdentity/IdentityForm.tsx:732-739 | about `SetIdentityDisabled`, the model of the button's `disabled` expression: an enabled "Set Identity" button implies all of: a submittable form, no estimate in flight, a positive gas fee, a balance above the total (or unknown), a changed identity, and a wallet-held proxy whenever the proxy selector is shown |
| IdentityForm.IdentityFormState.constructor | src/components/OnchainIdentity/IdentityForm.tsx:112-122 | the initial state: an empty info, not submittable, no balance, no proxies, the proxy selector hidden |
| IdentityForm.IdentityFormState.GetProxies | src/components/OnchainIdentity/IdentityForm.tsx:125-132 | an answer replaces the proxy list and clears the selection; no answer changes nothing |
| IdentityForm.IdentityFormState.HandleLocalStorageSave | src/components/OnchainIdentity/IdentityForm.tsx:139-151 | the stored record becomes the merge of the old record and the new keys |
| IdentityForm.IdentityFormState.OnAvailableBalanceChange | src/components/OnchainIdentity/IdentityForm.tsx:152-161 | a balance that does not parse is recorded as zero |
| IdentityForm.IdentityFormState.ToggleProxyDropdown | src/components/OnchainIdentity/IdentityForm.tsx:397-399 | the proxy checkbox flips whether the selector is shown |
| IdentityForm.IdentityFormState.SelectProxy | src/components/OnchainIdentity/IdentityForm.tsx:416-417 | the selector records the chosen proxy and whether the wallet holds it |
| IdentityForm.IdentityFormState.GetGasFee | src/components/OnchainIdentity/IdentityForm.tsx:163-184 | the request sent is the guarded estimate. The fee parts passed in (or the current ones) get the estimated gas fee, zero when nothing was asked. The loading flag ends false when the estimate answers. When the chain rejects it, the fee parts stay, loading stays true and submission is disabled |
| IdentityForm.IdentityFormState.HandleInfo | src/components/OnchainIdentity/IdentityForm.tsx:186-226 | the info and `okAll` become those of the trimmed form, and the bond is repriced. The repriced fee parts are recorded before the estimate, so they stay when the estimate is rejected. On the initial load the gas is estimated against the previous info and `okAll`. The submittable-means-`raw` invariant is kept |
| IdentityForm.IdentityFormState.ChangeField | src/components/OnchainIdentity/IdentityForm.tsx:452-456 | after an input changes, only that input changes in the form. The info, `okAll` and bond are those of the new form; the gas fee and loading flag are untouched. The trimmed value (a social's whole record) is merged into local storage under the input's key. The other three handlers (lines 483-487, 553-557, 596-600) are the same method with another input |
| IdentityForm.IdentityFormState.HandleIdentityHashSave | src/components/OnchainIdentity/IdentityForm.tsx:246-254 | only a non-empty hash is sent to the persistence endpoint |
| IdentityForm.IdentityFormState.OnSuccess | src/components/OnchainIdentity/IdentityForm.tsx:285-299 | the hash is read for the owner's address. Without a hash, whether the identity is absent or the query is rejected, nothing changes. With one, the hash, the closed overlay and form, the success modal, the stored `setIdentity` and `identityHash`, and the sent hash are all recorded |
| IdentityForm.IdentityFormState.OnFailed | src/components/OnchainIdentity/IdentityForm.tsx:300-308 | a failure stops both loading indicators |
| IdentityForm.IdentityFormState.HandleSetIdentity | src/components/OnchainIdentity/IdentityForm.tsx:256-330 | the submission is the guarded plan, and a refused submission changes nothing. A submitted info always has display, email and twitter `raw`. The plan is the bare judgement request exactly when the form offered "Request Judgement" (`OffersJudgementOnly`, line 721). On failure only the loading state changes; on success the state is that of `OnSuccess`, and without a hash the overlay stays loading; its message is not modelled (see the `executeTx` status line under "## Left out") |
| VotesHistory.OrderBy | src/ui-components/VotesHistory.tsx:53-57 | a one-element order: ascending by proposal index exactly when asked, descending otherwise |
| VotesHistory.OrderByInjective | src/ui-components/VotesHistory.tsx:53-57 | the two sort flags give different orders |
| VotesHistory.ToggledSort | src/ui-components/VotesHistory.tsx:186-189 | the status and vote headings leave the order alone; the proposal and actions headings flip it |
| VotesHistory.ToggleTwice | src/ui-components/VotesHistory.tsx:186-189 | two clicks on one heading restore the order |
| VotesHistory.QueryType | src/ui-components/VotesHistory.tsx:136 | the type is `ReferendumV2` exactly for OpenGov and `Referendum` exactly for Gov1 |
| VotesHistory.DecisionOrYes | src/ui-components/VotesHistory.tsx:162 | the delegation query's decision is the vote's decision when that is a non-empty string, and `yes` exactly otherwise (absent or empty) |
| VotesHistory.WithFigures | src/ui-components/VotesHistory.tsx:169 | a vote given delegation figures keeps all its other fields |
| VotesHistory.WithDelegation | src/ui-components/VotesHistory.tsx:167-172 | the updated list has the same length. Only the vote at `index` gains the figures; every other vote is unchanged |
| VotesHistory.WithDelegationOutside | src/ui-components/VotesHistory.tsx:167-172 | an index outside the list changes nothing |
| VotesHistory.WithDelegationSettles | src/ui-components/VotesHistory.tsx:158-173 | about `NeedsDelegationFetch`, the model of the guard of `handleDelegatesAndCapital` (with `CountTruthy` for the count's truthiness): after non-zero figures are stored, the vote needs no further fetch. After a zero count, a non-delegated vote is fetched again |
| VotesHistory.WithDelegationIdempotent | src/ui-components/VotesHistory.tsx:167-172 | storing the same figures twice equals storing them once |
| VotesHistory.VotesHistoryState.constructor | src/ui-components/VotesHistory.tsx:71-84 | the initial state: no data, page 1, descending order, every address checked, OpenGov where it is supported |
| VotesHistory.VotesHistoryState.HandleVoteHistoryData | src/ui-components/VotesHistory.tsx:130-146 | one request is sent with the current order, page, type and addresses. An answer sets the data and total; without one the data stays cleared. Loading ends false |
| VotesHistory.VotesHistoryState.LoadVotes | src/ui-components/VotesHistory.tsx:148-155 | with no address the data is an empty list and nothing is requested; otherwise a page is fetched |
| VotesHistory.VotesHistoryState.HandleDelegatesAndCapital | src/ui-components/VotesHistory.tsx:157-179 | a vote with both figures, or a delegated vote, changes nothing. Otherwise the delegation request is sent, and an answer stores the figures at `index` and in the expanded vote |
| VotesHistory.VotesHistoryState.HandleExpand | src/ui-components/VotesHistory.tsx:181-185 | the modal opens on the vote, whose delegation is then fetched as above |
| VotesHistory.VotesHistoryState.HandleSortingClick | src/ui-components/VotesHistory.tsx:186-189 | the sort flag becomes the toggled flag |
| VotesHistory.VotesHistoryState.SelectGov | src/ui-components/VotesHistory.tsx:114-128 | the chosen referendum kind is recorded |
| VotesHistory.VotesHistoryState.SetCheckedAddressList | src/ui-components/VotesHistory.tsx:90 | the checked addresses are recorded |
| AddProfile.ReduceIsKeep | pages/api/v1/auth/actions/addProfile.ts:34-45 | about `ReduceLinks`, the model of the `reduce`: the left-fold `reduce` gives the same links as keeping and reshaping each entry in order |
| AddProfile.KeepAppend | pages/api/v1/auth/actions/addProfile.ts:34-45 | normalising a concatenation concatenates the normalised parts, so order is preserved |
| AddProfile.KeepSingle | pages/api/v1/auth/actions/addProfile.ts:35-43 | one entry is kept, as `{link, type}`, exactly when it has a truthy `link` and `type` |
| AddProfile.KeptFromInput | pages/api/v1/auth/actions/addProfile.ts:34-45 | every stored link comes from a qualifying entry of the input |
| AddProfile.Handler | pages/api/v1/auth/actions/addProfile.ts:17-96 | about `Handle`, the specification of the whole `handler`: the handler with its early returns and blacklist loop gives exactly the outcome of `Handle` |
| AddProfile.MethodCheckedFirst | pages/api/v1/auth/actions/addProfile.ts:19 | a method other than POST gets 405 with no side effect, whatever the body |
| AddProfile.UsernameRequired | pages/api/v1/auth/actions/addProfile.ts:21 | a POST without a username gets 400 |
| AddProfile.BlacklistedUsername | pages/api/v1/auth/actions/addProfile.ts:23-25 | a username whose lower-cased form contains any blacklist entry gets 400 with no side effect |
| AddProfile.ArraysRequired | pages/api/v1/auth/actions/addProfile.ts:27-32 | truthy non-array badges get 400, and then truthy non-array social links get 400; falsy values count as empty arrays |
| AddProfile.WriteMeansChecksPassed | pages/api/v1/auth/actions/addProfile.ts:19-87 | a profile is written only for a POST with a username off the blacklist, array badges and links, a known user, a username that is free or the user's own, and an email that is empty or unused and valid |
| AddProfile.TakenUsername | pages/api/v1/auth/actions/addProfile.ts:55-58 | a username held by another user gets 400 |
| AddProfile.EmailExistenceBeforeValidity | pages/api/v1/auth/actions/addProfile.ts:61-66 | an email in use gets the "already exists" reply even when it is also invalid; an unused invalid one gets "invalid email" |
| AddProfile.WrittenProfile | pages/api/v1/auth/actions/addProfile.ts:60-95 | missing bio, image and title become `''`, falsy badges are written as `[]`, and the links are normalised. The verification mail goes to a non-empty email only, with the request's token and `x-network`. The new email replaces the token's email claim exactly when it is non-empty; otherwise the user's existing claim is kept. The token also carries the written profile, username and `custom_username`. A failed update answers 500 |
| Gov1Notification.EntriesFor | src/components/Settings/Notifications/Gov1Notification/utils.ts:133-167 | a title has a table exactly when `titleMapper` knows it |
| Gov1Notification.MappedTitles | src/components/Settings/Notifications/Gov1Notification/utils.ts:133-167 | about `TitleMapper`, the model of `titleMapper`: exactly the seven titles are mapped, each to a key of `allGov1`; any other title gives undefined |
| Gov1Notification.TitleMapperInjective | src/components/Settings/Notifications/Gov1Notification/utils.ts:143-167 | different titles map to different keys |
| Gov1Notification.TitleMapperCovers | src/components/Settings/Notifications/Gov1Notification/utils.ts:133-167 | every key of `allGov1` is reached from some title |
| Gov1Notification.EntriesWellFormed | src/components/Settings/Notifications/Gov1Notification/utils.ts:4-131 | every option has label equal to value and trigger name equal to preference name, and the trigger is one of the three Gov1 triggers |
| Gov1Notification.SubmittedFirstClosedLast | src/components/Settings/Notifications/Gov1Notification/utils.ts:4-131 | every table has 2 or more options, opens with the submitted trigger and ends with the closed one |
| Gov1Notification.InVotingKinds | src/components/Settings/Notifications/Gov1Notification/utils.ts:4-131 | a table has an in-voting option exactly for tips, referenda, proposals and council motions; tech committee, bounties and child bounties have none |

## Left out

- Rendering, styling, tooltips, icons, modals and their open/close wiring are presentation only. So are analytics events, notifications and console logging.
- Chain SDK calls (proxies, identity lookup, payment info, extrinsic construction and encoding, `executeTx`) are abstract answers. The status messages `executeTx` reports while a transaction runs are not modelled; the model passes the executor's verdict in as `included`.
- `getIdentityRegistrarIndex` is the `registrarIndex` parameter. A missing `api` object is folded into `apiReady`.
- HTTP fetches, Firestore queries and updates, JWT signing and the verification mail are inputs (`Services`, `Option` answers) or recorded effects.
- `JSON.parse` is not modelled. The model takes its result, or `None` when it throws.
- `withErrorHandling` is not modelled. A thrown status error is shown as the reply it carries; any other thrown error is `Fault`.
- Form values, the username, the email and the profile text fields are taken as strings. Undefined or non-string values, which would throw or be converted with `String()`, are not modelled.
- `Text.LowerChar`, `Text.ToLower`: `toLowerCase` is modelled for ASCII letters only. Other letters are left unchanged, unlike JavaScript's Unicode case mapping, so a blacklist match on a non-ASCII username can differ.
- `Text.Trim`: `trim` follows ECMAScript's white-space set; no Unicode normalisation is modelled.
- `IdentityValidation.CheckValue`: `minLength` is compared with the number of characters. JavaScript's `.length` counts UTF-16 code units, so a value with characters outside the Basic Multilingual Plane can pass in the source and fail here.
- `IdentityForm.OkAll`: `displayName.length > 1` counts characters. JavaScript counts UTF-16 code units, so a single astral character (such as one emoji) passes in the source and fails here.
- BN amounts are natural numbers. Balance parsing is the `Option<nat>` given to `OnAvailableBalanceChange`.
- React effects and asynchrony are modelled as follows:
  - `LoadVotes` is the effect body, and the caller decides when it runs;
  - the `getProxies` effect on an address change is `GetProxies`;
  - every async handler runs to completion in one step;
  - races between overlapping requests are not modelled (a stale estimate or page overwriting a fresher one, double submission, several tabs writing local storage).
- The intermediate states of an async handler are not modelled: the cleared list while a page loads, and the `Awaiting confirmation` overlay while a transaction runs. Each handler states only its final state.
- The commented-out riot and web fields, the display formatting of balances and `formatBalance.setDefaults` are not modelled.
- `IdentityForm.IdentityFormState.ChangeField`: `onChangeName` and `onChangeSocials` update the parent's `name` and `socials` props, which the model does not hold; the form values, what `handleInfo` reads, are what the model keeps.
- `IdentityForm.IdentityFormState.OnSuccess`: `setIdentityHash`, `closeModal` and `setIsIdentityCallDone` are parent callbacks. The model records the values they receive, not what the parent does with them.
- `AddProfile.Claims`: of the user record spread into the token, only its id, username and email claim are modelled; the other claims pass through unchanged in the source and are not represented.
