# AWS security academy: a verified model of its interactive core

The application teaches AWS security through pages with small scripted
simulations and a chat tutor that streams answers from a hosted
generative-text service. This project models the parts that hold state or
make a decision, one Dafny module per source file:

- `Chat` and `ChatWidget` (`chat.dfy`, `chat_widget.dfy`) cover the chat tutor's message pump. It keeps a transcript of `ChatMessage`s that starts with one greeting. Sending checks for blank input and a missing session, then appends the user's message. It then appends an empty model placeholder and overwrites the last entry's text with the running concatenation of the streamed chunks. A failure appends one fixed notice. `Chat` holds the widget state as a value with one transition function per handler, and one per resumption of the async `handleSend`. `ChatWidget.Widget` is the component as a class: each method's new state is the matching transition. The conversation service is outside the model. A session is an opaque handle, and a stream is a list of optional chunk texts plus an `Outcome` (completed, rejected before streaming, or broken after k chunks).
- `Services` (`services.dfy`) covers the twelve-service catalogue, the search and category filter, and the dispatch from a service id to its lab.
- `ServiceLabs` (`labs.dfy`) covers the catalogue's labs with state: KMS, WAF, Secrets Manager, Macie, Security Hub, Cognito and Network Firewall.
- `Introduction` (`responsibility.dfy`) covers the shared-responsibility items for EC2, RDS and Lambda, and the key-services line of each of the five pillars.
- `Automation` (`automation.dfy`) covers the tab switch, the CI/CD stage lookup, and the auto-remediation run with its log and highlights.
- `Detection` (`detection.dfy`) covers the GuardDuty attack run, its lit pipeline elements and its agent log.
- `DataProtection` (`data_protection.dfy`) covers secret rotation, the Macie discovery job, the file highlight and the findings panel.
- `CoreServices` (`iam_visualizer.dfy`) covers the IAM visualiser's four-stage cycle and its highlights.
- `Roadmap` (`roadmap.dfy`) covers the phase accordion and the task drawer with its three tabs.
- `Text` and `Wrappers` are helpers: JavaScript `trim`, `toLowerCase` and `includes` on strings, decimal rendering of numbers, and `Option`.

Timers are modelled without a clock.

- A `setTimeout` callback is an entry in a `pending` queue, and a `TimerFires` method runs the oldest entry.
- A scenario's `Valid()` ties what is shown to how many of its callbacks have fired.
- `StatusAt`, `StageAt` and `StepAt` are independent timelines: pure functions of the milliseconds since the start.
- The `RunFor`, `RotateFor` and `RunDiscoveryJob` methods fire the callbacks due by a given time and are proved to land on the timeline's state.
- A `setInterval` is a running interval whose ticks the caller delivers.

The disabled send button implies that a second send while a reply is loading is ignored (single flight). The Enter key does not follow this. Only the send button is disabled while loading (`components/GeminiTutor.tsx:134`). The Enter key calls the unguarded `handleSend` (`components/GeminiTutor.tsx:60-65`). The model follows the code. The consequence is under "Findings".

A reader might expect fragments that arrive after the widget is closed to be discarded. In the code, closing only hides the panel, and the stream keeps writing to the transcript. `Chat.ClickClose` follows the code.

## Model

| member | source | states |
|---|---|---|
| Chat.Initial | components/GeminiTutor.tsx:8-14 | The first state's transcript is exactly the model-role greeting. The input is empty, the widget is closed, nothing is loading, there is no session and no call. The consistency and single-flight invariants hold. |
| Chat.ClickOpen | components/GeminiTutor.tsx:17-21 | Opening sets `isOpen` when a key is configured. The session changes only if none existed and the widget was closed; it then becomes the service's `createChatSession` result. Nothing else changes, and both invariants are kept. |
| Chat.ClickClose | components/GeminiTutor.tsx:91 | Closing clears `isOpen` and changes nothing else; an in-flight call stays in flight. |
| Chat.SetInput | components/GeminiTutor.tsx:127 | Typing replaces the input and changes nothing else. |
| Chat.Send | components/GeminiTutor.tsx:27-33 | With a whitespace-only input or no session, the state is unchanged. Otherwise one user message with the exact untrimmed input is appended, the input is cleared, loading is set, and a new call is registered awaiting its stream. |
| Chat.SendSingleFlight | components/GeminiTutor.tsx:134 | The guarded send ignores the call while loading and otherwise is `Send`; it keeps the single-flight invariant. |
| Chat.ClickSend | components/GeminiTutor.tsx:132-138 | The send button is the guarded send. While it is disabled (loading or blank input), a click changes nothing. |
| Chat.KeyPress | components/GeminiTutor.tsx:60-65 | Enter without Shift is exactly `Send`, with no loading guard. Any other key, or Shift+Enter, changes nothing. |
| Chat.KeyPressSingleFlight | components/GeminiTutor.tsx:60-65 | The corrected key handler: Enter without Shift sends only when not loading, and the single-flight invariant is kept. |
| Chat.StreamOpened | components/GeminiTutor.tsx:36-39 | When call `id` was awaiting its stream, one empty model placeholder is appended and the call starts streaming from an empty text. Otherwise nothing changes. |
| Chat.ChunkArrived | components/GeminiTutor.tsx:41-51 | The transcript length, every entry but the last, and the last entry's role stay fixed. A non-empty chunk of a streaming call sets the last text to the call's text plus the chunk; an absent or empty chunk changes nothing. |
| Chat.StreamFailed | components/GeminiTutor.tsx:52-57 | A failing call gains exactly one model message, the fixed error notice. Everything already appended is kept, the call ends, and loading is cleared. |
| Chat.StreamEnded | components/GeminiTutor.tsx:55-57 | A stream that runs out ends its call and clears loading; the transcript is untouched. |
| Chat.StreamTextIsConcatOfNonEmpty | components/GeminiTutor.tsx:41-51 | The accumulated reply equals the in-order concatenation of the non-empty chunk texts. Absent and empty texts are skipped. |
| Chat.StreamTextAppend | components/GeminiTutor.tsx:41-44 | Accumulating a stream split in two gives the first part's text followed by the second part's. |
| Chat.ChunksAccumulate | components/GeminiTutor.tsx:41-51 | When a call's placeholder is last and up to date, after any chunks it holds the running text followed by the new chunk texts. Nothing else changes. |
| Chat.StreamedFromQuiet | components/GeminiTutor.tsx:27-51 | From a state where nothing is loading and the send is enabled, a send that streams `chunks` leaves old transcript ++ [user input, model reply text]. One call is in flight and the invariant holds. |
| Chat.ExchangeIgnored | components/GeminiTutor.tsx:28 | With the send disabled or no session, a whole exchange, whatever the stream does, leaves the state unchanged. |
| Chat.ExchangeCompleted | components/GeminiTutor.tsx:27-58 | A completed exchange leaves old transcript ++ [user input, concatenated reply]. The input is empty, loading is off, and no call is in flight. |
| Chat.ExchangeRejected | components/GeminiTutor.tsx:52-57 | A rejected stream leaves old transcript ++ [user input, error notice], with loading off. |
| Chat.ExchangeBroken | components/GeminiTutor.tsx:52-57 | A stream broken after k chunks leaves old transcript ++ [user input, partial reply, error notice]. Nothing is rolled back, and loading is off. |
| Chat.OverlappingSendsOverwriteUserMessage | components/GeminiTutor.tsx:60-65 | With the code as written, a second Enter while the first reply streams breaks the invariant. The first stream's next chunk then overwrites the second user message. |
| Chat.OverlappingSendsGuarded | components/GeminiTutor.tsx:134 | With the corrected handler, the same keystrokes leave the second question in the input. The chunk reaches the placeholder and the invariant holds. |
| ChatWidget.Widget.constructor | components/GeminiTutor.tsx:8-14 | The component's fields start as `Chat.Initial`. |
| ChatWidget.Widget.ClickOpen | components/GeminiTutor.tsx:17-21 | The new fields are `Chat.ClickOpen` of the old. |
| ChatWidget.Widget.ClickClose | components/GeminiTutor.tsx:91 | The new fields are `Chat.ClickClose` of the old. |
| ChatWidget.Widget.SetInput | components/GeminiTutor.tsx:127 | The new fields are `Chat.SetInput` of the old. |
| ChatWidget.Widget.Send | components/GeminiTutor.tsx:27-33 | The new fields are `Chat.Send` of the old. |
| ChatWidget.Widget.ClickSend | components/GeminiTutor.tsx:132-138 | The new fields are `Chat.ClickSend` of the old. |
| ChatWidget.Widget.KeyPress | components/GeminiTutor.tsx:60-65 | The new fields are `Chat.KeyPress` of the old. |
| ChatWidget.Widget.StreamOpened | components/GeminiTutor.tsx:36-39 | The new fields are `Chat.StreamOpened` of the old. |
| ChatWidget.Widget.ChunkArrived | components/GeminiTutor.tsx:41-51 | The new fields are `Chat.ChunkArrived` of the old; the last entry is overwritten in place. |
| ChatWidget.Widget.StreamFailed | components/GeminiTutor.tsx:52-57 | The new fields are `Chat.StreamFailed` of the old. |
| ChatWidget.Widget.StreamEnded | components/GeminiTutor.tsx:55-57 | The new fields are `Chat.StreamEnded` of the old. |
| ChatWidget.Converse | components/GeminiTutor.tsx:27-58 | Driving one exchange, with its `for await` loop resuming once per chunk, ends in `Chat.Exchanged` of the start. |
| Services.CategoryButtonsCoverCategories | modules/AllServices.tsx:172 | The category buttons are "All" followed by each category's name once, with no duplicates. |
| Services.Filtered | modules/AllServices.tsx:148-152 | A service is kept iff its lower-cased name or description contains the lower-cased search text, and the category is "All" or the service's own. The result is an order-preserving subsequence of the input, and each matching entry keeps all of its copies. |
| Services.FilteredKeepsAllMatching | modules/AllServices.tsx:148-152 | When every service matches, the filter returns the list unchanged. |
| Services.InitialViewShowsCatalogue | modules/AllServices.tsx:21-22 | The initial empty search with "All" shows the whole catalogue, all twelve entries, in order. |
| Services.CategoryOnly | modules/AllServices.tsx:148-152 | With an empty search, a category button keeps exactly the services of that category, in catalogue order. |
| Services.CatalogueIds | modules/AllServices.tsx:25-146 | The catalogue's ids are iam, cognito, kms, secrets, waf, shield, guardduty, inspector, macie, hub, netfw and artifact, in that order. |
| Services.DispatchInjective | modules/AllServices.tsx:307-322 | A dedicated lab determines the id that selected it, so no two ids share a lab. |
| Services.CataloguedIdsHaveLabs | modules/AllServices.tsx:307-322 | Every catalogue id is dispatched to a dedicated lab. |
| Services.UnderConstructionIffUncatalogued | modules/AllServices.tsx:307-322 | The "Under Construction" default is reached exactly by ids outside the catalogue. |
| ServiceLabs.KmsButtonLabel | modules/AllServices.tsx:380 | The button reads "Decrypt Data" exactly when the data is encrypted. |
| ServiceLabs.KmsLab.constructor | modules/AllServices.tsx:360-361 | The lab starts decrypted, showing "Secret123". |
| ServiceLabs.KmsLab.Toggle | modules/AllServices.tsx:363-371 | A toggle flips `isEncrypted` and keeps the shown text matching it. |
| ServiceLabs.EncryptedIffCiphertext | modules/AllServices.tsx:363-371 | The lab is encrypted exactly when the ciphertext placeholder is shown. |
| ServiceLabs.ToggleTwice | modules/AllServices.tsx:363-371 | Two toggles restore both the text and the flag. |
| ServiceLabs.VerdictFor | modules/AllServices.tsx:393 | A request is blocked exactly when the rule was on. |
| ServiceLabs.WafBannerShowsVerdict | modules/AllServices.tsx:415-419 | The banner reads "403 FORBIDDEN (Blocked by WAF)" exactly when the captured rule was on, and "200 OK (Allowed)" otherwise. |
| ServiceLabs.WafLab.constructor | modules/AllServices.tsx:387-388 | The rule starts off, with no status. |
| ServiceLabs.WafLab.ToggleRule | modules/AllServices.tsx:402 | The switch flips the rule and touches nothing else. |
| ServiceLabs.WafLab.SendRequest | modules/AllServices.tsx:390-395 | A request clears the status at once and queues a callback holding the rule as it is now. |
| ServiceLabs.WafLab.TimerFires | modules/AllServices.tsx:392-394 | The oldest callback sets the verdict from the rule it captured, not the current one. |
| ServiceLabs.RequestThenToggle | modules/AllServices.tsx:390-395 | Flipping the rule after clicking does not change that request's verdict. |
| ServiceLabs.RotateButtonLabel | modules/AllServices.tsx:450 | The button reads "Rotating Secret..." exactly while rotating. |
| ServiceLabs.SecretsLab.constructor | modules/AllServices.tsx:425-427 | The lab starts at version 1 with "Pass_v1_abc", not rotating. |
| ServiceLabs.SecretsLab.Rotate | modules/AllServices.tsx:429-436 | The unguarded `rotate` sets rotating and queues a callback holding the current version. |
| ServiceLabs.SecretsLab.ClickRotate | modules/AllServices.tsx:446 | The button is ignored while rotating. Otherwise exactly one rotation is pending, and the version and the shown password stay as they were until its callback runs. |
| ServiceLabs.SecretsLab.RotationCompletes | modules/AllServices.tsx:431-435 | The oldest callback adds exactly 1 to the version and builds the password from its captured version plus 1. It then clears rotating. With nothing pending it changes nothing. It keeps the button invariant `Valid()`. |
| ServiceLabs.RotateThroughButton | modules/AllServices.tsx:429-450 | Through the button, a completed rotation adds exactly 1 to the version, and the new password names the new version. |
| ServiceLabs.ProgressAfterValue | modules/AllServices.tsx:526-537 | After n ticks the progress is min(5n, 100): always a multiple of 5 in [0, 100], ending at 100. |
| ServiceLabs.ProgressMonotone | modules/AllServices.tsx:526-537 | The progress never decreases from one tick to a later one. |
| ServiceLabs.MacieLab.constructor | modules/AllServices.tsx:524 | The progress starts at 0, with no interval running. |
| ServiceLabs.MacieLab.Scan | modules/AllServices.tsx:526-527 | `scan` does nothing once the progress is above 0; otherwise it starts one interval. |
| ServiceLabs.MacieLab.Tick | modules/AllServices.tsx:528-535 | A tick adds 5, or holds at 100 and clears its interval. The progress stays a multiple of 5 within [0, 100] and never decreases. |
| ServiceLabs.RunMacieScan | modules/AllServices.tsx:526-537 | A scan followed by n ticks shows `ProgressAfter(n)`; the interval is cleared on the 21st tick. |
| ServiceLabs.MacieViewsOverTicks | modules/AllServices.tsx:548-563 | The button offers the job only before the first tick. It reads "Scan Complete", and the results show, exactly from the 20th tick on. It reads "Scanning..." in between. |
| ServiceLabs.ScoreAfterValue | modules/AllServices.tsx:622-629 | After n ticks the score is min(2n, 78). |
| ServiceLabs.RingGreenAfter | modules/AllServices.tsx:636 | The ring is green exactly from the 36th tick on, and the score is exactly 78 from the 39th. |
| ServiceLabs.SecurityHubLab.constructor | modules/AllServices.tsx:620 | The score starts at 0, with no interval running. |
| ServiceLabs.SecurityHubLab.Check | modules/AllServices.tsx:622-629 | The unguarded `check` starts a new interval whose counter is 0. |
| ServiceLabs.SecurityHubLab.ClickCheck | modules/AllServices.tsx:641 | The button is ignored once the score is above 0. |
| ServiceLabs.SecurityHubLab.Tick | modules/AllServices.tsx:624-628 | A tick of interval i sets the score to its counter plus 2; the interval is cleared when that reaches 78. |
| ServiceLabs.RunAssessment | modules/AllServices.tsx:622-641 | One assessment followed by n ticks shows `ScoreAfter(n)`; its interval is gone from the 39th tick. |
| ServiceLabs.CognitoLab.constructor | modules/AllServices.tsx:590 | The lab starts at step 0. |
| ServiceLabs.CognitoLab.ClickLogin | modules/AllServices.tsx:592-595 | The button is ignored once the step is above 0; otherwise the step moves from 0 to 1. |
| ServiceLabs.CognitoLab.TimerFires | modules/AllServices.tsx:594 | The pending callback moves the step to 2. |
| ServiceLabs.CognitoViews | modules/AllServices.tsx:601-613 | Each step from 0 to 2 shows a caption of its own. The three dots' class conditions colour exactly the first step + 1 dots: the first is always blue, and the third, the only green one, is green exactly at step 2. The button reads "Login User" exactly at step 0. |
| ServiceLabs.NetworkFirewallLab.constructor | modules/AllServices.tsx:649 | The packet starts waiting. |
| ServiceLabs.NetworkFirewallLab.Send | modules/AllServices.tsx:651-654 | A request resets the packet to waiting, which shows "Waiting for traffic...", and queues its outcome. |
| ServiceLabs.NetworkFirewallLab.TimerFires | modules/AllServices.tsx:653 | The oldest callback drops a malicious packet and allows a safe one. The caption then reads "DROPPED: malware.site" or "ALLOWED: google.com". |
| ServiceLabs.PacketCaptionsDistinct | modules/AllServices.tsx:659-661 | The three `packet === …` captions differ, so the caption shows which state the packet is in. |
| Introduction.CustomerItems | modules/Introduction.tsx:100-115 | Under every model, the first three customer items are Customer Data, IAM & Access and Client Encryption, in that order. |
| Introduction.AwsItems | modules/Introduction.tsx:128-142 | Under every model, the first three AWS items are Physical Hardware, Regions & AZs and Edge Locations. |
| Introduction.CustomerAlwaysOwns | modules/Introduction.tsx:101-103 | Customer Data, IAM & Access and Client Encryption are customer items for every model. |
| Introduction.AwsAlwaysOwns | modules/Introduction.tsx:129-131 | Physical Hardware, Regions & AZs and Edge Locations are AWS items for every model. |
| Introduction.CustomerModelItems | modules/Introduction.tsx:105-114 | OS Patching, Firewall Config and Network Traffic are customer items iff the model is EC2. Database Schema is one iff the model is RDS. |
| Introduction.AwsModelItems | modules/Introduction.tsx:133-141 | OS & Kernel is an AWS item iff the model is not EC2. Runtime Environment and Server Management are AWS items iff it is Lambda. |
| Introduction.ItemCounts | modules/Introduction.tsx:100-142 | There are 6/4/3 customer items and 3/4/6 AWS items for EC2/RDS/Lambda, and no label is on both sides. |
| Introduction.KeyServices | modules/Introduction.tsx:194-198 | The key-services box renders at most one line, and it is one of the five. |
| Introduction.ExactlyOneKeyServicesLine | modules/Introduction.tsx:194-198 | Each pillar index 0 to 4 selects exactly its own line, and any other index selects none. |
| Introduction.KeyServicesDetermineThePillar | modules/Introduction.tsx:194-198 | Different pillars show different lines. |
| Introduction.InitialView | modules/Introduction.tsx:6-7 | The page opens on EC2 and the first pillar. |
| Introduction.SelectModel | modules/Introduction.tsx:74 | A model button sets the model and keeps the pillar. |
| Introduction.SelectPillar | modules/Introduction.tsx:153-156 | A pillar tab, whose index is within the five pillars, sets the pillar and keeps the model. |
| Automation.SubViews | modules/Automation.tsx:31-35 | The content area renders exactly one sub-view for every tab. |
| Automation.ExactlyOneSubView | modules/Automation.tsx:8 | Exactly one sub-view renders, the one the tab names, and the page opens on the CI/CD pipeline. |
| Automation.Find | modules/Automation.tsx:169 | The lookup returns the first stage in the list with that id, and returns nothing iff no stage has that id. |
| Automation.FindById | modules/Automation.tsx:169-173 | With distinct ids, looking up an entry's id returns that entry. |
| Automation.StageIdsDistinct | modules/Automation.tsx:46-117 | The five stage ids are distinct. |
| Automation.ClickedStageIsShown | modules/Automation.tsx:135 | Clicking the i-th stage shows the i-th stage's entry, and nothing is shown before any click. |
| Automation.StatusAt | modules/Automation.tsx:290-296 | On the run's timeline, the status is idle exactly from 9000 ms on. |
| Automation.TriggerAt | modules/Automation.tsx:289 | The trigger is set exactly while the status is not idle, from the start to the 9000 ms reset. |
| Automation.Console.constructor | modules/Automation.tsx:283-285 | The console starts idle, untriggered, showing the log. |
| Automation.Console.RunSimulation | modules/Automation.tsx:287-297 | The run is ignored unless idle; otherwise it sets the trigger and 'detected' and queues the three callbacks. |
| Automation.BreachButtonOverTime | modules/Automation.tsx:344-354 | The button reads "Running..." until the reset at 9000 ms, and "Simulate Breach" exactly when the status is idle, which is when a click is not ignored. |
| Automation.Console.TimerFires | modules/Automation.tsx:291-296 | The oldest callback runs, and the state stays that of the callbacks fired so far. |
| Automation.Console.ToggleCode | modules/Automation.tsx:339 | `showCode` flips, and the run is untouched. |
| Automation.RunFor | modules/Automation.tsx:287-297 | A start followed by the callbacks due by t ms gives the timeline's status: detected on [0, 2500), remediating on [2500, 5500), resolved on [5500, 9000), then idle. The trigger matches the timeline too. |
| Automation.HighlightsOverTime | modules/Automation.tsx:362 | The detection box is lit on [0, 2500), routing on [2500, 5500), and remediation on [2500, 9000). |
| Automation.LogLines | modules/Automation.tsx:424-453 | The log always starts with the two watchdog lines. |
| Automation.LogLinesByStatus | modules/Automation.tsx:428-451 | ALERT appears iff not idle, EVENT and LAMBDA iff remediating or resolved, and SUCCESS iff resolved. |
| Automation.LogIsCumulative | modules/Automation.tsx:428-451 | During a run, an earlier log is a prefix of a later one. |
| Automation.ConsolePane | modules/Automation.tsx:412 | The code view shows iff `showCode` is set, else the log. |
| Detection.StageAt | modules/Detection.tsx:63-67 | On the run's timeline, the stage is within 0 to 3 and is 0 exactly from 7000 ms on. |
| Detection.AttackAt | modules/Detection.tsx:63-67 | The attack type is the chosen one exactly while the stage is not 0, and null after the reset. |
| Detection.Simulation.constructor | modules/Detection.tsx:58-59 | The simulation starts at stage 0 with no attack type. |
| Detection.Simulation.StartAttack | modules/Detection.tsx:61-68 | The attack is ignored whenever both buttons are disabled (`ButtonsDisabled`, stage not 0). Otherwise the type is recorded, the stage becomes 1, and the three callbacks are queued. |
| Detection.AttackButtonsOverTime | modules/Detection.tsx:84-108 | Over a run, both attack buttons are disabled until the reset at 7000 ms. Only the chosen button spins, for exactly as long, and a spinning button is disabled. |
| Detection.Simulation.TimerFires | modules/Detection.tsx:65-67 | The oldest callback runs; the type is kept until the last callback. |
| Detection.RunFor | modules/Detection.tsx:61-68 | A start followed by the callbacks due by t ms gives stage 1 on [0, 2000), 2 on [2000, 4000) and 3 on [4000, 7000), then 0 with no type. The type is the chosen one during the whole run. |
| Detection.LitOverTime | modules/Detection.tsx:116-138 | The attacker and the flow logs are lit on [0, 7000), the engine on [2000, 7000), and the finding on [4000, 7000). |
| Detection.LogOverTime | modules/Detection.tsx:156-159 | The log shows INFO, then the attack's own WARN from 2000 ms, then CRITICAL naming its finding from 4000 ms, and nothing after the reset. |
| Detection.LogIsCumulative | modules/Detection.tsx:156-159 | During a run, an earlier log is a prefix of a later one. |
| Detection.FindingMatchesAttack | modules/Detection.tsx:159 | CRITICAL names SSHBruteForce exactly for the SSH attack, and BitcoinTool.B otherwise. |
| DataProtection.StepAt | modules/DataProtection.tsx:8-13 | On the rotation's timeline, the step is within 0 to 3 and is 0 exactly from 4500 ms on. |
| DataProtection.RotationPanel.constructor | modules/DataProtection.tsx:6 | The panel starts at step 0. |
| DataProtection.RotationPanel.ClickRotate | modules/DataProtection.tsx:88 | The button is ignored unless at step 0; otherwise the step becomes 1 and the three callbacks are queued. |
| DataProtection.RotationPanel.TimerFires | modules/DataProtection.tsx:10-12 | The oldest callback runs, and the step stays that of the callbacks fired so far. |
| DataProtection.RotateFor | modules/DataProtection.tsx:8-13 | A click followed by the callbacks due by t ms gives the timeline's step: 1, then 2 at 1500 ms, 3 at 3000 ms and 0 at 4500 ms. |
| DataProtection.RotationLabels | modules/DataProtection.tsx:113-116 | At most one status label is shown. |
| DataProtection.OneLabelPerStep | modules/DataProtection.tsx:113-116 | Every step of a rotation shows exactly the label of its step: "Lambda Creating Ver 2..." before 1500 ms, "Updating DB Password..." until 3000 ms, "Testing Connection..." until 4500 ms. The synced label shows exactly when the button is enabled, which is from 4500 ms on. |
| DataProtection.MacieScan.constructor | modules/DataProtection.tsx:125 | The scan starts idle. |
| DataProtection.MacieScan.StartScan | modules/DataProtection.tsx:127-132 | The unguarded `startScan` sets scanning and queues one more alert callback. |
| DataProtection.MacieScan.ClickScan | modules/DataProtection.tsx:146 | The button is ignored when disabled (`ScanDisabled`, not idle). From idle, exactly one callback is pending. |
| DataProtection.ScanButtonViews | modules/DataProtection.tsx:144-152 | The caption tells the three scan states apart. The button is disabled exactly when it does not read "Run Data Discovery Job". |
| DataProtection.MacieScan.TimerFires | modules/DataProtection.tsx:129-131 | A pending callback sets 'alert'. |
| DataProtection.AlertIsTerminal | modules/DataProtection.tsx:127-146 | Neither the button nor a timer leaves 'alert'. |
| DataProtection.RunDiscoveryJob | modules/DataProtection.tsx:127-132 | One click and its callback go from idle through scanning to 'alert', with nothing left pending. |
| DataProtection.OnlyCustomersCsvHighlighted | modules/DataProtection.tsx:160-163 | A file is highlighted iff it is customers.csv and the scan is running. |
| DataProtection.FindingsPanelByState | modules/DataProtection.tsx:184-202 | The panel holds exactly one entry: "No recent jobs" iff idle, analyzing iff scanning, and the customers.csv finding iff 'alert'. |
| CoreServices.Position | modules/CoreServices.tsx:63 | Every stage has one dot, at its position in the list. |
| CoreServices.NextIsRotation | modules/CoreServices.tsx:42-47 | The successor moves one dot to the right, from request through policy and eval to result, and wraps back to request. |
| CoreServices.StageAfterIsRotation | modules/CoreServices.tsx:40-50 | After n firings the stage is n dots further on, modulo 4. |
| CoreServices.CycleOfFour | modules/CoreServices.tsx:25 | Four firings return any stage to itself. From the opening 'request', the stage at firing n is the (n mod 4)-th dot. |
| CoreServices.ExactlyOneDotLit | modules/CoreServices.tsx:63-64 | The lit dot is exactly the one of the current stage. |
| CoreServices.HighlightsOverTicks | modules/CoreServices.tsx:71-133 | The policy card is lit at firings 1 and 2 mod 4, the match checks at 2, the green badge at 3, and the request card at 0. |
| Roadmap.Toggle | modules/Roadmap.tsx:327 | A header click opens that phase iff it was not the open one; otherwise all phases close. |
| Roadmap.AtMostOneExpanded | modules/Roadmap.tsx:355 | At most one phase is expanded. This follows from the single `expandedPhase` cell the page keeps. |
| Roadmap.ToggleTwice | modules/Roadmap.tsx:327 | Two clicks on one header restore the state iff that phase was open or none was; otherwise all phases end closed. |
| Roadmap.ClickedPhaseOnly | modules/Roadmap.tsx:327 | After a click on a header, no other phase is expanded. |
| Roadmap.NumberedSteps | modules/Roadmap.tsx:440-448 | The rendered console steps hold the task's step texts, one per step, in order. |
| Roadmap.StepNumbering | modules/Roadmap.tsx:444-446 | Steps are numbered idx+1, increasing, and exactly the last has no connector. |
| Roadmap.TabContent | modules/Roadmap.tsx:434-500 | The tab area renders at most one thing. |
| Roadmap.SnippetOrEmptyState | modules/Roadmap.tsx:468-474 | The Terraform and CLI tabs show the task's snippet when it has one; EmptyState shows exactly when it does not. |
| Roadmap.ConsoleStepsOnlyIfPresent | modules/Roadmap.tsx:434 | The console tab renders iff the task has console steps, shows them numbered, and never shows EmptyState. |
| Roadmap.RoadmapPage.constructor | modules/Roadmap.tsx:39-41 | The page opens with phase 0 expanded, no task selected, and the console tab. |
| Roadmap.RoadmapPage.ClickPhase | modules/Roadmap.tsx:327 | `expandedPhase` becomes `Toggle` of the old value; nothing else changes. |
| Roadmap.RoadmapPage.SelectTask | modules/Roadmap.tsx:374 | A task is selected, and the tab and accordion are kept. |
| Roadmap.RoadmapPage.SelectTab | modules/Roadmap.tsx:427-429 | Only the tab changes. |
| Roadmap.RoadmapPage.ClickDrawer | modules/Roadmap.tsx:403-418 | The backdrop and the X clear `selectedTask`, and a click on the panel changes nothing. |
| Roadmap.RoadmapPage.Drawer | modules/Roadmap.tsx:399 | The drawer is shown iff a task is selected. |
| Roadmap.SwitchTask | modules/Roadmap.tsx:374 | After closing and selecting another task, the drawer shows that task under the tab chosen before. |

## Left out

- The generative-text service is a foreign call (`services/geminiService.ts`). The session is an opaque handle, and the API-key check is a boolean (`apiKeyPresent`). The model and system prompt are not modelled.
- `scrollIntoView`, `console.error`, clipboard writes, icons, styling, framer-motion animations and the widget's loading spinner are DOM or presentation effects, so they are not modelled.
- Chat.ChunkArrived: the source mutates the last message object in place through a shallow copy of the array. The model rewrites the last entry of a value sequence, which produces the same transcript. The aliasing itself (an older state sharing that object) is not captured.
- Timers are modelled as ordered queues of callbacks, not wall-clock time. Within each scenario the callbacks have increasing delays, or all share one delay, so they fire in the order they were set. Races between different components' timers are not modelled. Intervals are not cleaned up on unmount.
- ServiceLabs.SecretsLab.RotationCompletes: the password's random suffix (`Math.random`) is a parameter.
- The Security Hub ring's dash offset, and the flex weights of the responsibility zones, are floating-point presentation. Only the ring's colour is modelled.
- IamLab, ShieldLab, ArtifactLab, GuardDutyLab and InspectorLab of `modules/AllServices.tsx` are outside the modelled core. They are plain toggles or one canned timer, and IAM policy evaluation does not exist in the code.
- The AMI factory's baking animation (`modules/Automation.tsx:200-280`) is a presentation-only flag and is not modelled.
- The configuration texts of the pipeline stages, the code snippets, the pillar descriptions, and the roadmap's phase and task catalogue are static content. Roadmap tasks are parameters.
- Chat.SetInput, Chat.ClickSend and Chat.KeyPress also accept closed states. In the source the input box and the send button exist only while the widget is open (`components/GeminiTutor.tsx:83`), so those events cannot happen while it is closed. The proved invariants hold either way.
- Text.Lower is ASCII-only; JavaScript `toLowerCase` also folds non-ASCII letters. Every catalogue text is ASCII, but a search containing non-ASCII capitals is not folded the way a browser folds it.
- The exchange lemmas (`Chat.ExchangeCompleted`, `Chat.ExchangeRejected`, `Chat.ExchangeBroken`) start from a state with nothing in flight. The states reached by overlapping sends are covered only by the two `OverlappingSends` lemmas.
- The selected service's detail modal, and the catalogue card's colours (`modules/AllServices.tsx:210-260`), are presentation only.

## Findings

| source | as written | input that shows it | evidently intended | confidence | as-written member | corrected member |
|---|---|---|---|---|---|---|
| components/GeminiTutor.tsx:60-65 | Enter without Shift calls `handleSend`, which has no `isLoading` guard; only the send button is disabled while loading (line 134) | Open the widget, type a non-blank question and press Enter. Once the reply's stream has opened, type a second non-blank question and press Enter. The first stream's next chunk then overwrites the second question, which keeps its user role, and the first reply's placeholder stays empty | Enter is ignored while a reply is loading, as the disabled button is, so a stream only ever writes its own placeholder | not executed | Chat.KeyPress, Chat.OverlappingSendsOverwriteUserMessage | Chat.KeyPressSingleFlight, Chat.OverlappingSendsGuarded |
