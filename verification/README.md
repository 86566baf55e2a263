# CarbonCredX core, modelled in Dafny

CarbonCredX is a single-page React demo of a carbon-credit platform. This project models its
logic in Dafny and proves properties of that model. The logic lives in nine places:

- the application shell (`App.tsx`). It picks the landing page or one of eight views from the
  current section, and toggles the AI assistant panel;
- the navigation bar (`Navigation.tsx`). It has the logo, seven section items that light up for
  the current section, and a mobile menu that opens and closes;
- the global store (`store/useStore.ts`). It holds the user, a token list and a transaction list,
  changed by four actions;
- the four-step KYC form (`KYCProcess.tsx`). It has a step counter moved by Next and Previous,
  a form map and an identity-document map;
- the AI assistant (`AIAssistant.tsx`):
  - a case-insensitive, first-match-wins keyword dispatch that picks one of six canned replies;
  - a transcript that a send extends with the user's text and, after a delay, with the reply;
  - the prompts behind the reply buttons;
- the document upload (`DocumentUpload.tsx`):
  - a file list that grows when files are chosen;
  - a delayed verification that marks one file verified with a credit count;
  - removal of a file;
  - a four-item progress checklist;
- the token explorer (`TokenExplorer.tsx`). It searches a fixed catalogue by a free-text query
  and narrows it by a project-type filter;
- the real-world-asset portfolio (`RWAPortfolio.tsx`). It has a type filter, two colour lookups
  and a summary whose figures should agree with the asset rows;
- the wallet (`WalletInterface.tsx`). A balance-visibility switch masks the overview's totals
  and per-token amounts; there are three tabs with their panels and a line describing each
  transaction.

How the source is modelled:

- **Pure logic.** Reducers, filters, lookups and the dispatch become datatypes and functions.
- **Per-component state.** React state that a component changes becomes a class. Its fields are
  the state variables, and each handler is a method with a `modifies` clause. Each handler's
  `ensures` ties the new state to a pure function of the old one.
- **Deferred callbacks.** Each `setTimeout` callback is a separate method that the caller invokes.
- **Clock and random values.** Values drawn from the clock or from `Math.random` are parameters.

Modules:

- `Text`: ASCII `toLowerCase`/`toUpperCase`, `includes` (proved equal to "occurs at some
  index"), and `trim` with JavaScript's whitespace set.
- `Seqs`: subsequence, reverse, count.
- `Wrappers`: `Option`.
- `Browser`: the name, size and type of a chosen file.
- `Store`, `Kyc`, `Assistant`, `Upload`, `Explorer`, `Portfolio`, `Wallet`, `Router`,
  `Navigation`: one per source file.

Where the code differs from what its screens and names suggest, the model follows the code:

- An uploaded file has only the statuses `uploaded` and `verified`. There is no `processing`
  status; the processing phase is the single component-wide `isVerifying` flag.
- The DeFi hub and the RWA portfolio are mounted by the shell, but the navigation bar has no
  item for them. `Navigation.ItemsCoverSections` states this.
- The explorer's "Forest Conservation" filter uses the id `forest`, which is also a substring of
  `afforestation`. That filter therefore lists the afforestation project too.
  `Explorer.ForestFilterIncludesAfforestation` states this.
- The wallet's balance-visibility switch masks only the overview: the total value, the total
  token count and each token's balance and value. The transactions tab prints every amount and
  rupee value whatever the switch says (`WalletInterface.tsx` lines 306-307 and 321).
  `Wallet.OverviewOf` states what is masked; the transaction list is not masked in the model either.
- The portfolio's diversification percentages (65/20/15) are not the shares of the asset values.
  Carbon holds under 22 percent of the value. `Portfolio.DiversificationIsNotValueShare` states
  this.

## Model

| member | source | states |
|---|---|---|
| `Text.ToLower` | project/src/components/AIAssistant.tsx:125 | lower-casing keeps the length and lower-cases each character in place |
| `Text.ContainsCorrect` | project/src/components/AIAssistant.tsx:127 | `includes` holds exactly when the needle occurs at some index of the text |
| `Text.TrimEmptyIffBlank` | project/src/components/AIAssistant.tsx:95 | `trim()` is empty exactly when every character is JavaScript whitespace |
| `Store.Initial` | project/src/store/useStore.ts:41-43 | the store starts with no user, no tokens and no transactions |
| `Store.SetUser` | project/src/store/useStore.ts:45 | the user is set and the token and transaction lists are unchanged |
| `Store.AddToken` | project/src/store/useStore.ts:47-49 | the token is appended after the existing ones, which keep their places; the rest is unchanged |
| `Store.AddTransaction` | project/src/store/useStore.ts:51-53 | the transaction is prepended, the older ones follow in order; the rest is unchanged |
| `Store.SetBalances` | project/src/store/useStore.ts:56-58 | entries with the id get the new balance and keep every other field; all other entries are unchanged; the length is kept |
| `Store.UpdateTokenBalance` | project/src/store/useStore.ts:55-59 | only the token list changes, and its length is kept |
| `Store.UpdateUnknownIdIsIdentity` | project/src/store/useStore.ts:55-59 | updating an id that no token has leaves the list unchanged |
| `Store.UpdateLastWriteWins` | project/src/store/useStore.ts:55-59 | two updates of one id equal the second alone |
| `Store.UpdateKeepsIds` | project/src/store/useStore.ts:55-59 | a balance update never changes the ids or their order |
| `Store.RunTransactionsNewestFirst` | project/src/store/useStore.ts:51-53 | after any sequence of actions the transaction list is the added transactions newest first, then the old list |
| `Store.RunTokensInAddOrder` | project/src/store/useStore.ts:47-59 | after any sequence of actions the token ids are the old ids followed by the added ids, in the order they were added |
| `Store.RunFromInitial` | project/src/store/useStore.ts:40-60 | from the initial store the transactions are exactly the added ones, reversed, and the token ids are the added ids |
| `Kyc.Next` | project/src/components/KYCProcess.tsx:44-48 | specified by `Kyc.MovesStayInRange` and `Kyc.BackAndForth` |
| `Kyc.Prev` | project/src/components/KYCProcess.tsx:50-54 | specified by `Kyc.MovesStayInRange` and `Kyc.BackAndForth` |
| `Kyc.MovesStayInRange` | project/src/components/KYCProcess.tsx:44-54 | Next and Previous keep the step in 1..4 and move it by one, except at the last or first step |
| `Kyc.BackAndForth` | project/src/components/KYCProcess.tsx:44-54 | Previous then Next returns to the step, except at step 1; Next then Previous returns, except at step 4 |
| `Kyc.WalkStaysInRange` | project/src/components/KYCProcess.tsx:44-54 | after any sequence of presses the step is still in 1..4 |
| `Kyc.WalkNoSkipping` | project/src/components/KYCProcess.tsx:44-48 | the step never exceeds the start plus the number of forward presses |
| `Kyc.Indicators` | project/src/components/KYCProcess.tsx:81-98 | specified by `Kyc.ProgressIsAPrefix` |
| `Kyc.Connectors` | project/src/components/KYCProcess.tsx:81-98 | specified by `Kyc.ProgressIsAPrefix` |
| `Kyc.ProgressIsAPrefix` | project/src/components/KYCProcess.tsx:81-98 | the highlighted circles are exactly the first `step` ones; a connector is filled exactly when the circle after it is highlighted |
| `Kyc.ShowsButtons` | project/src/components/KYCProcess.tsx:304-321 | specified by `Kyc.ForwardLabelAnnouncesCompletion` |
| `Kyc.PreviousDisabled` | project/src/components/KYCProcess.tsx:304-321 | specified by `Kyc.ForwardLabelAnnouncesCompletion` |
| `Kyc.ForwardLabel` | project/src/components/KYCProcess.tsx:304-321 | specified by `Kyc.ForwardLabelAnnouncesCompletion` |
| `Kyc.ForwardLabelAnnouncesCompletion` | project/src/components/KYCProcess.tsx:304-321 | the forward button reads "Complete Verification" exactly when it leads to the last step, where the buttons disappear; Previous is disabled exactly where it would not move |
| `Kyc.KycProcess.constructor` | project/src/components/KYCProcess.tsx:8-21 | step 1, five empty form fields, three empty document slots, Aadhaar hidden |
| `Kyc.KycProcess.NextStep` | project/src/components/KYCProcess.tsx:44-48 | the step advances by one unless at step 4; it stays in range |
| `Kyc.KycProcess.PrevStep` | project/src/components/KYCProcess.tsx:50-54 | the step goes back by one unless at step 1; it stays in range |
| `Kyc.KycProcess.HandleInputChange` | project/src/components/KYCProcess.tsx:30-35 | the named field gets the value and every other field keeps its value |
| `Kyc.FirstFile` | project/src/components/KYCProcess.tsx:213 | `files[0]` is the first chosen file, and absent exactly when the list is empty |
| `Kyc.KycProcess.HandleFileUpload` | project/src/components/KYCProcess.tsx:37-42 | the document slot gets the file, or is cleared when none is given, and every other slot is kept |
| `Kyc.KycProcess.ChooseDocument` | project/src/components/KYCProcess.tsx:213 | a picker change stores the first chosen file in the slot, or clears the slot when the list is empty (the same holds for the PAN picker at line 241) |
| `Kyc.KycProcess.ToggleAadhaar` | project/src/components/KYCProcess.tsx:186 | the show-Aadhaar flag is negated |
| `Kyc.CompleteTheFlow` | project/src/components/KYCProcess.tsx:44-48 | from a fresh form the step after three forward presses is step 4, and after a fourth it is still step 4 |
| `Assistant.GenerateReply` | project/src/components/AIAssistant.tsx:124-152 | specified by `Assistant.DispatchIsFirstMatch`, `FirstMatchWins`, `MenuIffNoKeyword` and `CaseInsensitive` |
| `Assistant.FirstMatch` | project/src/components/AIAssistant.tsx:124-152 | the table reading answers either the menu or one of the topics in the table |
| `Assistant.DispatchIsFirstMatch` | project/src/components/AIAssistant.tsx:124-152 | the if-chain equals reading the ordered keyword table first-match-wins on the lower-cased text |
| `Assistant.FirstMatchWins` | project/src/components/AIAssistant.tsx:127-135 | topic i answers exactly when the text mentions one of its keywords and no keyword of an earlier topic |
| `Assistant.MenuIffNoKeyword` | project/src/components/AIAssistant.tsx:136-151 | the menu reply answers exactly the texts that mention no keyword |
| `Assistant.CaseInsensitive` | project/src/components/AIAssistant.tsx:125 | lower-casing or upper-casing the text does not change the reply |
| `Assistant.CarbonBeatsPrice` | project/src/components/AIAssistant.tsx:129-135 | "Carbon PRICE" mentions the carbon and the market keywords and gets the carbon reply |
| `Assistant.ActionPrompt` | project/src/components/AIAssistant.tsx:155-163 | every prompt is non-blank, so a send would not ignore it; a known action gets one of the fixed prompts; any other gets the action after an 8-character prefix; the first character tells the five known actions and the rest apart |
| `Assistant.ButtonsAndPrompts` | project/src/components/AIAssistant.tsx:40-163 | every greeting and menu button sends a fixed prompt; every button of the carbon, security and market replies sends "Execute " and its action key |
| `Assistant.ActionPromptInjective` | project/src/components/AIAssistant.tsx:155-163 | different actions give different prompts |
| `Assistant.Chat.constructor` | project/src/components/AIAssistant.tsx:35-50 | the transcript is the greeting alone; the input is empty; not typing, not minimized |
| `Assistant.Chat.SendButtonEnabled` | project/src/components/AIAssistant.tsx:286 | the send button is enabled exactly when the input holds a non-whitespace character and no reply is being typed |
| `Assistant.Chat.SetInput` | project/src/components/AIAssistant.tsx:279 | the input box holds the typed value |
| `Assistant.Chat.HandleSendMessage` | project/src/components/AIAssistant.tsx:94-107 | a blank input changes nothing; otherwise the text is appended as a user turn, the box is cleared, typing shows, and a reply to that text is scheduled; every sent text is answered or pending |
| `Assistant.Chat.DeliverReply` | project/src/components/AIAssistant.tsx:109-121 | the reply chosen for the oldest pending text is appended and typing stops |
| `Assistant.Chat.ToggleMinimized` | project/src/components/AIAssistant.tsx:206 | the minimized flag is negated |
| `Assistant.AskOnce` | project/src/components/AIAssistant.tsx:94-121 | one non-blank question leaves the transcript greeting, question, reply |
| `Upload.NewEntries` | project/src/components/DocumentUpload.tsx:24-32 | each chosen file gives one entry, in order, with its name, size and type, status uploaded, and no credits |
| `Upload.MarkVerified` | project/src/components/DocumentUpload.tsx:42-47 | entries with the id become verified with the credit count; all others are unchanged; the length is kept |
| `Upload.RemoveById` | project/src/components/DocumentUpload.tsx:56-58 | keeps, in order, exactly the entries with another id; the length drops by the number of entries with that id |
| `Upload.VerifyAfterRemoveIsNoOp` | project/src/components/DocumentUpload.tsx:41-58 | a verification that fires after its file was removed changes nothing |
| `Upload.VerifyChangesOneEntry` | project/src/components/DocumentUpload.tsx:42-47 | with distinct ids, verification changes exactly the one entry |
| `Upload.VerifyMovesForward` | project/src/components/DocumentUpload.tsx:45 | verified entries stay verified, and every verified entry carries credits in 100..1099 |
| `Upload.VerifyCountsUp` | project/src/components/DocumentUpload.tsx:42-47 | verification never lowers the verified count, and raises it by one for a single unverified entry |
| `Upload.NoIdNoChange` | project/src/components/DocumentUpload.tsx:42-47 | verifying an id that is not listed leaves the list unchanged |
| `Upload.Checklist` | project/src/components/DocumentUpload.tsx:60-65 | specified by `Upload.ChecklistShape` and `Upload.VerifyCompletesValidation` |
| `Upload.ChecklistShape` | project/src/components/DocumentUpload.tsx:60-65 | step 1 is done iff a file is listed; step 3 iff some file is verified; step 3 implies steps 1 and 2; step 4 is never done |
| `Upload.VerifyCompletesValidation` | project/src/components/DocumentUpload.tsx:41-51 | verifying a listed file completes step 3 |
| `Upload.NothingScheduledAllVerified` | project/src/components/DocumentUpload.tsx:36-51 | once no completion is left to fire, every entry is verified with credits in 100..1099 |
| `Upload.DocumentUpload.constructor` | project/src/components/DocumentUpload.tsx:17-19 | no files, empty status line, not verifying, nothing scheduled |
| `Upload.DocumentUpload.HandleFileUpload` | project/src/components/DocumentUpload.tsx:21-52 | the chosen files are appended, in order, as uploaded entries, and a completion is scheduled for each of their ids; every entry still uploaded has its completion scheduled |
| `Upload.DocumentUpload.BeginVerification` | project/src/components/DocumentUpload.tsx:37-40 | the verifying flag is set and the status reads "Processing document with AI..." |
| `Upload.DocumentUpload.CompleteVerification` | project/src/components/DocumentUpload.tsx:41-51 | the earliest scheduled file is marked verified with the credit count and leaves the schedule, the flag clears, the status reads "Document verified successfully!" |
| `Upload.DocumentUpload.RemoveFile` | project/src/components/DocumentUpload.tsx:56-58 | the list loses exactly the entries with the id; entries stay well formed; the schedule is untouched |
| `Upload.RunTimers` | project/src/components/DocumentUpload.tsx:36-51 | once every scheduled timer has fired, nothing is scheduled, every entry is still the same file (id, name, size, type) in the same place, and every entry is verified with credits in 100..1099 |
| `Explorer.MatchesSearch` | project/src/components/TokenExplorer.tsx:73-77 | specified by `Explorer.EmptySearchListsAll` and `Explorer.ForestFilterIncludesAfforestation` |
| `Explorer.Keep` | project/src/components/TokenExplorer.tsx:73-80 | specified by `Explorer.FilterTokens`, `Explorer.FilterNarrowsAll` and `Explorer.ForestFilterIncludesAfforestation` |
| `Explorer.FilterTokens` | project/src/components/TokenExplorer.tsx:73-80 | an order-preserving selection holding exactly the entries that match the search and the type filter, each kept entry as many times as in the catalogue |
| `Explorer.NoTokensFoundIff` | project/src/components/TokenExplorer.tsx:271-279 | "No tokens found" shows exactly when no entry passes |
| `Explorer.EmptySearchListsAll` | project/src/components/TokenExplorer.tsx:19-20 | the initial empty query with filter "all" lists the whole catalogue in order |
| `Explorer.FilterNarrowsAll` | project/src/components/TokenExplorer.tsx:78-79 | a type filter only narrows what "all" lists for the same query |
| `Explorer.ForestFilterIncludesAfforestation` | project/src/components/TokenExplorer.tsx:79-86 | the "forest" filter keeps the Forest Conservation and Afforestation types and drops REDD+ |
| `Explorer.ForestFilterOnCatalogue` | project/src/components/TokenExplorer.tsx:22-86 | on the catalogue the "forest" filter lists CCX-001 and AFFOR-003 |
| `Portfolio.OfType` | project/src/components/RWAPortfolio.tsx:133 | an order-preserving selection of exactly the assets of the type, each as many times as in the list |
| `Portfolio.FilterAssets` | project/src/components/RWAPortfolio.tsx:131-133 | "all" lists every asset; any other type lists exactly that type's assets, in order and with their multiplicity |
| `Portfolio.TabCountsMatchFilter` | project/src/components/RWAPortfolio.tsx:124-133 | the count on each type tab equals the number of assets the tab lists |
| `Portfolio.InitialSelectionListsCarbon` | project/src/components/RWAPortfolio.tsx:23 | the initial selection lists the two carbon projects |
| `Portfolio.RiskColor` | project/src/components/RWAPortfolio.tsx:135-142 | a risk level gets a colour other than the slate default exactly when it is Low, Medium or High |
| `Portfolio.StatusColor` | project/src/components/RWAPortfolio.tsx:144-151 | a status gets a colour other than the slate default exactly when it is Active, Operational or Stored |
| `Portfolio.ColorsDistinct` | project/src/components/RWAPortfolio.tsx:135-151 | the known levels get pairwise different, non-default classes; likewise the known statuses |
| `Portfolio.AssetsHaveKnownColors` | project/src/components/RWAPortfolio.tsx:26-111 | every listed asset gets a non-default risk and status colour |
| `Portfolio.SummaryMatchesAssets` | project/src/components/RWAPortfolio.tsx:113-115 | the summary's 4375 tokens and 399575 rupees are the sums over the rows |
| `Portfolio.ValuesAreTokensTimesPrice` | project/src/components/RWAPortfolio.tsx:26-111 | each row's value is its token count times its unit price |
| `Portfolio.DiversificationIsComplete` | project/src/components/RWAPortfolio.tsx:117-121 | the diversification shares add up to 100 |
| `Portfolio.DiversificationIsNotValueShare` | project/src/components/RWAPortfolio.tsx:113-121 | carbon holds 87075 of 399575 rupees, under 22 percent, not the 65 shown |
| `Wallet.TotalsMatchTokens` | project/src/components/WalletInterface.tsx:24-32 | 12847 and 234567 are the sums of the token balances and values |
| `Wallet.OverviewOf` | project/src/components/WalletInterface.tsx:106-116 | shown, the four places hold the formatted figures; hidden, the overview is the all-mask one for the token count and does not depend on the amounts |
| `Wallet.HiddenRevealsNothing` | project/src/components/WalletInterface.tsx:185-191 | hidden, the overview shows only masks and is the same for any two wallets with as many tokens |
| `Wallet.MaskIsNotAnAmount` | project/src/components/WalletInterface.tsx:106 | the mask differs from every rupee amount |
| `Wallet.Capitalize` | project/src/components/WalletInterface.tsx:151 | the caption is the name up to letter case, keeps its length, starts with no lower-case letter and differs only in its first character; a name that does not start lower-case is its own caption |
| `Wallet.CapitalizeIdempotent` | project/src/components/WalletInterface.tsx:151 | capitalizing a caption changes nothing |
| `Wallet.TabCaptions` | project/src/components/WalletInterface.tsx:141-151 | the captions are Overview, Transactions and Settings |
| `Wallet.Panels` | project/src/components/WalletInterface.tsx:159 | specified by `Wallet.ExactlyOnePanel` (the three panel guards are at lines 159, 280 and 331) |
| `Wallet.ExactlyOnePanel` | project/src/components/WalletInterface.tsx:141 | each tab renders exactly its own panel; any other value renders none |
| `Wallet.Describe` | project/src/components/WalletInterface.tsx:314-316 | specified by `Wallet.DescribeShowsKind` and `Wallet.MissingFieldPrintsUndefined` |
| `Wallet.DescribeShowsKind` | project/src/components/WalletInterface.tsx:314-316 | the line's first character tells received, sent and minted apart |
| `Wallet.MissingFieldPrintsUndefined` | project/src/components/WalletInterface.tsx:316 | a minted row without a project reads "Minted from undefined" |
| `Wallet.ListedTransactionsAreComplete` | project/src/components/WalletInterface.tsx:34-65 | every listed transaction has the counterpart field its kind reads |
| `Wallet.WalletInterface.constructor` | project/src/components/WalletInterface.tsx:21-22 | balances shown, the overview tab active |
| `Wallet.WalletInterface.ToggleBalance` | project/src/components/WalletInterface.tsx:99 | the visibility flag is negated |
| `Wallet.WalletInterface.SelectTab` | project/src/components/WalletInterface.tsx:144 | the chosen tab becomes active |
| `Wallet.ToggleTwice` | project/src/components/WalletInterface.tsx:346 | two toggles restore the flag, the tab and the displayed overview |
| `Router.NamesDistinct` | project/src/App.tsx:92-99 | no two views share a section name, and none is called home |
| `Router.MountedViews` | project/src/App.tsx:92-99 | specified by `Router.MountsOnlyItsOwnView` |
| `Router.MountsOnlyItsOwnView` | project/src/App.tsx:92-99 | a view is mounted exactly when the section is its name; at most one view is mounted |
| `Router.Render` | project/src/App.tsx:86-107 | the landing page renders exactly for the home section; any other section renders an inner screen whose assistant panel follows the flag and which mounts at most one view, exactly the view named by the section |
| `Router.RenderShowsSection` | project/src/App.tsx:86-103 | each view's section shows that view alone; an unknown section shows none; home shows the landing page |
| `Router.App.constructor` | project/src/App.tsx:31-32 | section home, assistant closed |
| `Router.App.SetCurrentSection` | project/src/App.tsx:31 | the section becomes the given one |
| `Router.App.ToggleAI` | project/src/App.tsx:102 | the assistant flag is negated |
| `Router.App.GetStarted` | project/src/App.tsx:160 | the section becomes dashboard |
| `Router.App.StartJourney` | project/src/App.tsx:317 | the section becomes dashboard |
| `Router.LandingToDashboard` | project/src/App.tsx:160-164 | a fresh app followed by "Get Started" shows the dashboard alone with the assistant closed |
| `Navigation.Highlighted` | project/src/components/Navigation.tsx:64 | an item is lit exactly when the current section is its id |
| `Navigation.AtMostOneHighlighted` | project/src/components/Navigation.tsx:169 | with distinct ids one item is lit when the section is an item id and none otherwise |
| `Navigation.ItemsCoverSections` | project/src/components/Navigation.tsx:28-36 | the ids are distinct, the first is home, every other names a view, and defi and rwa have no item |
| `Navigation.NavBar.constructor` | project/src/components/Navigation.tsx:26 | the mobile menu starts closed |
| `Navigation.NavBar.ClickLogo` | project/src/components/Navigation.tsx:45 | the section becomes home |
| `Navigation.NavBar.ClickDesktopItem` | project/src/components/Navigation.tsx:62 | the section becomes the item's id |
| `Navigation.NavBar.ClickMobileItem` | project/src/components/Navigation.tsx:164-167 | the section becomes the item's id and the menu closes |
| `Navigation.NavBar.OpenMenu` | project/src/components/Navigation.tsx:110 | the menu opens |
| `Navigation.NavBar.CloseMenu` | project/src/components/Navigation.tsx:126 | the menu closes |
| `Navigation.PickFromMobileMenu` | project/src/components/Navigation.tsx:148-169 | picking item i from the menu leaves it closed and lights exactly item i |

## Left out

- **Rendering.** Markup, styling, icons, animation and scrolling are presentation. Only the
  parts that decide what is shown are modelled: masks, highlights, labels, panels and which view
  is mounted.
- **Timers.** The delays are left out, and each deferred callback is an explicit method:
  - `Assistant.Chat.DeliverReply` is the assistant's reply;
  - `Upload.DocumentUpload.BeginVerification` and `CompleteVerification` are the upload's two
    steps.

  Every file waits 1000 ms and then 3000 ms, so completions fire in the order the files were
  chosen. The model keeps that order as the `scheduled` queue of `Upload.DocumentUpload`. Several
  uploads in flight share one `isVerifying` flag and one status line. How a begin step interleaves
  with other files' steps is not modelled.
- **Clock and random values.**
  - File ids (`Date.now() + Math.random()`) and the drawn credit count are parameters. The count
    must lie in 100..1099.
  - Message ids and timestamps, the upload time, and date formatting are left out.
- **Number formatting.** `toLocaleString` is a parameter `format` of `Wallet.OverviewOf`.
- **Clipboard writes.** The clipboard writes in the wallet and the explorer are foreign calls and
  are left out.
- **Enter key.** The assistant's Enter key calls the same send as the button. The model has one
  `HandleSendMessage`. `Assistant.Chat.SendButtonEnabled` also requires that no reply is being
  typed.
- **Reply buttons.** `handleActionClick` sets the input and then sends. The send reads the input
  from before the click, so the model gives only the action-to-prompt mapping
  (`Assistant.ActionPrompt`). It does not claim that the prompt is sent.
- **Prototype keys.** The lookup in `actionMessages` would also hit inherited object keys such as
  `constructor`. The model's map holds only the five own keys.
- **Letter case.** `toLowerCase` and `toUpperCase` are modelled on ASCII letters only, so
  free-text input (the assistant's question and the explorer's query) is treated as if it were
  ASCII. Every keyword, id and name in the tables is ASCII.
- `Text.ToLower`: does not model JavaScript's full Unicode case mapping. Under it the Kelvin sign
  U+212A lower-cases to `k`, so "STA\u212AE" gets the DeFi reply in the browser but the menu
  reply in the model; "İ" (U+0130) lower-cases to two characters, so the length is not always
  kept.
- `Assistant.CaseInsensitive`: holds for the ASCII case mapping only. In the browser "ſ" (U+017F)
  upper-cases to `S`, so "ſtake" gets the menu reply while its upper-cased form "STAKE" gets the
  DeFi reply.
- **Store.**
  - The zustand container is left out. Its actions are modelled as state-to-state functions,
    since no view reads the store.
  - JavaScript numbers are `real`. No arithmetic is done on them.
- **Constant tables.** Amounts are whole rupees, and prices are in hundredths of a rupee.
- **Other components.** `MarketPlace.tsx` (random floating-point chart data), `Dashboard.tsx`
  and `DeFiHub.tsx` (static tables) are not part of this model. Neither is `app/page.tsx`, a
  second router over six sections without the assistant.
- **Reply wording.** The reply texts and their button lists are named by topic (`Reply`) and not
  spelled out. The buttons themselves are listed in `Assistant.Buttons`;
  `Assistant.ButtonsAndPrompts` says which of them send a fixed prompt.
