# Saast chat client: a verified model of its logic

Saast is a React chat client. It keeps conversations in a store, renders
assistant replies as markdown, diagrams or highlighted code, and has a settings
store with themes, an environment-driven configuration, a conversation sidebar,
a mock back end, a checkout page, a profile page and a model picker. This
project models the sequential logic inside those pieces in Dafny and proves
what each piece promises.

Each module follows one source file:

- `ChatStore` (`chat_store.dfy`) is the conversation store, a class over a
  `seq<Conversation>` and an `Option<string>` active id. Its actions prepend,
  merge, filter and append exactly as the store's `set(...)` callbacks do
  (`Types` holds the message and conversation records and the `Partial`
  merges).
- `ContentRenderer` covers `detectContentType` (first match wins over the
  trimmed text: mermaid fence, whole-input code fence, matching-tag HTML,
  markdown), the renderer `switch`, and the markdown `code` hook.
- `SettingsStore` is a class with the theme, the four simple settings and
  the document element whose class follows the theme mode.
- `Config` covers the environment readers over an `Env` map, the exported
  configuration, the start-up warnings and `validateConfig`.
- `ChatSidebar` covers the search filter and the date grouping. The grouping
  is a method with a loop, as the source's `reduce` is. The `Sidebar` class
  holds the search and edit state and drives a `ChatStore`.
- `MockApi` covers reply selection (a loop with early return), `login`,
  `register` and the shape of `sendMessage`'s result.
- `CheckoutPage` covers the card-number formatter, the effect that writes the
  formatted value back into the input, the plan table, the selected plan and
  the form schema.
- `UserProfile` covers the first and last name split, the full-name join, the
  edit form handlers, the plan and status defaults, the prices and the
  upgrade offers.
- `ModelSelector` covers the model catalogue, the lookup of the current
  model, the drop-down options, the context-length label and the details
  dialog.
- `Text` and `Sequences` hold the JavaScript primitives the model needs, with
  their facts: `trim`, `toLowerCase`, `split`, `join`, `includes`,
  `startsWith`, `parseInt`, `toString`, `filter`, `find`.

Clock readings, generated ids, `Math.random()` values, the timestamp parser,
`window.confirm` answers and the email validator cannot be computed here.
They are parameters of the operations that use them.

## Model

| member | source | states |
|---|---|---|
| Types.MergeEmpty | client/src/store/chatStore.ts:55 | Merging an empty `Partial` patch leaves a conversation or a message unchanged. |
| ChatStore.MapWhere | client/src/store/chatStore.ts:53-57 | The map over conversations keeps the length and rewrites exactly the entries whose id matches. |
| ChatStore.PatchMessages | client/src/store/chatStore.ts:95-97 | The message map keeps count and order and merges the patch into exactly the messages with the matching id. |
| ChatStore.Updated | client/src/store/chatStore.ts:55 | Every field the patch carries replaces the conversation's own and every other field is kept. `updatedAt` is `now` whatever the patch carried, so an empty patch only restamps. |
| ChatStore.WithoutMessage | client/src/store/chatStore.ts:109-113 | Deleting a message drops every message with that id and keeps every other one, in order and as often as it occurred. Only the messages and `updatedAt = now` change. |
| ChatStore.NewConversation | client/src/store/chatStore.ts:135-143 | A new conversation has the fresh id, no messages, the given title or "New Conversation" when it is absent or empty, `createdAt` equal to `updatedAt`, and model "gpt-3.5-turbo". |
| ChatStore.ActiveIn | client/src/store/chatStore.ts:153-156 | A conversation is found exactly when some conversation carries the active id, and the one found is in the list under that id. |
| ChatStore.ChatStore.constructor | client/src/store/chatStore.ts:32-35 | The store starts with no conversations, no active id, not loading and no error. |
| ChatStore.ChatStore.Persisted | client/src/store/chatStore.ts:160-163 | The persisted projection holds exactly the conversations and the active id. |
| ChatStore.ChatStore.SetConversations | client/src/store/chatStore.ts:37-39 | Replaces the list and nothing else. |
| ChatStore.ChatStore.SetActiveConversation | client/src/store/chatStore.ts:41-43 | Sets the active id and nothing else. |
| ChatStore.ChatStore.AddConversation | client/src/store/chatStore.ts:45-49 | Prepends the conversation and leaves the active id, the loading flag and the error unchanged. |
| ChatStore.ChatStore.UpdateConversation | client/src/store/chatStore.ts:51-59 | Keeps the list length. Only conversations with the id are merged and stamped with `now`. All others are unchanged. |
| ChatStore.ChatStore.DeleteConversation | client/src/store/chatStore.ts:61-67 | No conversation with the id remains. Every other one is kept, in order and as often as it occurred, and nothing new appears. The active id becomes none exactly when it was that id. |
| ChatStore.ChatStore.AddMessage | client/src/store/chatStore.ts:69-87 | Appends one stamped message to the conversations with the id and stamps them. The others are unchanged, and an unknown id leaves the list as it was. |
| ChatStore.ChatStore.UpdateMessage | client/src/store/chatStore.ts:89-103 | Merges the patch into the matching messages of the conversations with the id, and stamps those conversations even when no message matched. |
| ChatStore.ChatStore.DeleteMessage | client/src/store/chatStore.ts:105-117 | Removes the messages with the id from the conversations with the id and stamps those conversations. The others are unchanged. |
| ChatStore.ChatStore.SetLoading | client/src/store/chatStore.ts:119-121 | Sets the flag and leaves the persisted projection unchanged. |
| ChatStore.ChatStore.SetError | client/src/store/chatStore.ts:123-125 | Sets the error and leaves the persisted projection unchanged. |
| ChatStore.ChatStore.ClearError | client/src/store/chatStore.ts:127-129 | Clears the error and leaves the persisted projection unchanged. |
| ChatStore.ChatStore.CreateNewConversation | client/src/store/chatStore.ts:131-151 | Returns the fresh id, prepends the new conversation and makes it active. |
| ChatStore.ChatStore.GetActiveConversation | client/src/store/chatStore.ts:153-156 | Returns the first conversation whose id is the active id, or none exactly when there is none. |
| ChatStore.CreateThenReply | client/src/store/chatStore.ts:69-87 | After a conversation is created and a user and an assistant message are added, it holds those two messages in order and is the active one. |
| ChatSidebar.FilterConversations | client/src/components/chat/ChatSidebar.tsx:64-69 | Keeps exactly the conversations whose lower-cased title or message content contains the lower-cased query, each as often as it occurs, as a subsequence in the original order. |
| ChatSidebar.EmptyQueryKeepsAll | client/src/components/chat/ChatSidebar.tsx:64-69 | An empty search keeps every conversation. |
| ChatSidebar.SearchIgnoresCase | client/src/components/chat/ChatSidebar.tsx:65-67 | Two queries with the same lower-case form give the same result. |
| ChatSidebar.UpperQueryFindsLower | client/src/components/chat/ChatSidebar.tsx:65-67 | Lower-casing a query first changes nothing. |
| ChatSidebar.BucketMonotone | client/src/components/chat/ChatSidebar.tsx:81-89 | An older update never lands in a more recent bucket than a newer one. |
| ChatSidebar.ThisWeekRange | client/src/components/chat/ChatSidebar.tsx:85-87 | A past "This Week" conversation lies between two and seven days back. |
| ChatSidebar.FutureIsThisWeek | client/src/components/chat/ChatSidebar.tsx:81-87 | A conversation stamped after today falls in "This Week", because the tests compare instants and not days. |
| ChatSidebar.FirstOf | client/src/components/chat/ChatSidebar.tsx:72-96 | Gives the position of the first conversation in a bucket, with none before it. |
| ChatSidebar.GroupByBucket | client/src/components/chat/ChatSidebar.tsx:72-96 | Each group holds exactly the filtered conversations of its bucket, in order. No two groups share a bucket and no group is empty. Every conversation has a group, and the groups come in the order their buckets first occur. |
| ChatSidebar.Push | client/src/components/chat/ChatSidebar.tsx:91-94 | Adding one conversation to its bucket's group, or to a new group, keeps the grouping property. |
| ChatSidebar.IndexOf | client/src/components/chat/ChatSidebar.tsx:91 | Finds the group of a bucket, or reports that there is none. |
| ChatSidebar.JoinGroup | client/src/components/chat/ChatSidebar.tsx:94 | Appending to an existing group keeps the grouping property. |
| ChatSidebar.OpenGroup | client/src/components/chat/ChatSidebar.tsx:91-94 | Opening a new group for an unseen bucket keeps the grouping property. |
| ChatSidebar.GroupedConversations | client/src/components/chat/ChatSidebar.tsx:72-96 | The sidebar's groups are a grouping of the search result by update time. |
| ChatSidebar.TitleOnly | client/src/components/chat/ChatSidebar.tsx:52 | A patch that carries only a title renames and stamps a conversation and changes nothing else. |
| ChatSidebar.RenameByPatch | client/src/components/chat/ChatSidebar.tsx:52 | Updating the list with a title-only patch renames exactly the conversations with the id. |
| ChatSidebar.Sidebar.constructor | client/src/components/chat/ChatSidebar.tsx:26-28 | The search, the editing id and the edit title start empty. |
| ChatSidebar.Sidebar.Visible | client/src/components/chat/ChatSidebar.tsx:64-69 | The shown list is a subsequence of the store's conversations that holds exactly the ones matching the search, each as often as it occurs in the store. |
| ChatSidebar.Sidebar.SetSearchQuery | client/src/components/chat/ChatSidebar.tsx:119 | Sets the query and nothing else. |
| ChatSidebar.Sidebar.NewChat | client/src/components/chat/ChatSidebar.tsx:30-34 | Prepends a new untitled conversation and makes it active. |
| ChatSidebar.Sidebar.Select | client/src/components/chat/ChatSidebar.tsx:150 | Makes the conversation active and leaves the list, the loading flag and the error unchanged. |
| ChatSidebar.Sidebar.DeleteConversation | client/src/components/chat/ChatSidebar.tsx:36-42 | A declined confirmation changes nothing. A confirmed one removes every conversation with the id and keeps every other one, in order and with its multiplicity. The active id is cleared exactly when it was that id. The loading flag and the error never change. |
| ChatSidebar.Sidebar.EditStart | client/src/components/chat/ChatSidebar.tsx:44-48 | Starts editing that conversation with its current title. |
| ChatSidebar.Sidebar.SetEditTitle | client/src/components/chat/ChatSidebar.tsx:157 | Sets the edit title and nothing else. |
| ChatSidebar.Sidebar.EditSave | client/src/components/chat/ChatSidebar.tsx:50-57 | A title that trims to nothing leaves the conversations as they were. Otherwise exactly the edited conversation is renamed to the trimmed title. The edit state is cleared either way, and the active id, loading flag and error are kept. |
| ChatSidebar.Sidebar.EditCancel | client/src/components/chat/ChatSidebar.tsx:59-62 | Clears the edit state and leaves the store as it was. |
| ContentRenderer.DetectContentType | client/src/components/chat/ContentRenderer.tsx:116-154 | Never yields kind text, and carries a language exactly for code. |
| ContentRenderer.DetectMermaid | client/src/components/chat/ContentRenderer.tsx:120-126 | A trimmed text between "```mermaid" and "```" is a diagram whose text is characters 10 to length-3 of the trimmed input, trimmed again. |
| ContentRenderer.MermaidLength | client/src/components/chat/ContentRenderer.tsx:120-121 | The opening and closing fences cannot overlap, so the slice is well defined. |
| ContentRenderer.CodeBlockIntro | client/src/components/chat/ContentRenderer.tsx:129 | Every fence, word tag, line feed, body, line feed and fence matches the code-block expression, which gives back that tag and body. |
| ContentRenderer.CodeBlockElim | client/src/components/chat/ContentRenderer.tsx:129 | Every match of the code-block expression has that form. |
| ContentRenderer.WordRun | client/src/components/chat/ContentRenderer.tsx:40 | `\w+` takes the longest run of word characters. |
| ContentRenderer.HtmlMatchIntro | client/src/components/chat/ContentRenderer.tsx:140 | Every `<name ... </name>` text matches the back-referencing expression. |
| ContentRenderer.HtmlMatchElim | client/src/components/chat/ContentRenderer.tsx:140 | Every match has the form `<name ... </name>` with a non-empty word name. |
| ContentRenderer.ClassifyCodeBlock | client/src/components/chat/ContentRenderer.tsx:129-136 | A whole fenced block whose tag does not begin with "mermaid" is code, with the body as its content and the tag, or "text" when there is no tag, as its language. |
| ContentRenderer.DetectCode | client/src/components/chat/ContentRenderer.tsx:129-136 | The same holds for the untrimmed input. |
| ContentRenderer.DetectCodeExample | client/src/components/chat/ContentRenderer.tsx:129-136 | A fenced `js` block yields language "js" and content "console.log(1)". |
| ContentRenderer.MermaidBeatsCode | client/src/components/chat/ContentRenderer.tsx:119-136 | A mermaid-fenced block also matches the code expression but is classified as a diagram, never as code. |
| ContentRenderer.DetectHtml | client/src/components/chat/ContentRenderer.tsx:139-147 | A `<name ... </name>` fragment that is not fenced is html, with the trimmed text as its content. |
| ContentRenderer.ClassifyHtml | client/src/components/chat/ContentRenderer.tsx:139-147 | Trimmed text that starts with "<", ends with ">" and matches the expression is html. |
| ContentRenderer.HtmlPrefixExample | client/src/components/chat/ContentRenderer.tsx:140 | The back reference may bind a prefix of the opening tag's word, so `<ab></a>` counts as html. |
| ContentRenderer.DetectMarkdown | client/src/components/chat/ContentRenderer.tsx:150-153 | Text that fails the three tests is markdown, with the trimmed text as its content. |
| ContentRenderer.DetectIgnoresPadding | client/src/components/chat/ContentRenderer.tsx:117 | White space around the input never changes the classification. |
| ContentRenderer.MermaidTagDivergence | client/src/components/chat/ContentRenderer.tsx:40-47 | A fence tagged "mermaidx" is a diagram at the top level, with "x" left in the diagram text, while the embedded hook highlights it as "mermaidx" code. |
| ContentRenderer.StripTrailingNewline | client/src/components/chat/ContentRenderer.tsx:44 | Removes one final line feed if there is one, and nothing else. |
| ContentRenderer.LanguageOf | client/src/components/chat/ContentRenderer.tsx:40-41 | A found language is a word run that follows "language-" in the class. |
| ContentRenderer.LanguageOfFound | client/src/components/chat/ContentRenderer.tsx:40-41 | The language is empty exactly when "language-" followed by a word character occurs nowhere in the class. |
| ContentRenderer.LanguageOfLeftmost | client/src/components/chat/ContentRenderer.tsx:40-41 | The language is the word run after the leftmost occurrence. |
| ContentRenderer.CodeHook | client/src/components/chat/ContentRenderer.tsx:39-65 | An inline element, or one without a language, stays a plain code element. A block in "mermaid" goes to the diagram renderer. Any other language goes to the code renderer, numbered exactly when the code has more than five lines. Both renderers get the code without its final line feed. |
| ContentRenderer.Render | client/src/components/chat/ContentRenderer.tsx:18-33 | Diagrams and code get the classified content and language. Html and markdown both reach the markdown renderer, which gets the original untrimmed text. |
| SettingsStore.ModeName | client/src/store/settingsStore.ts:96 | The class name is "light" exactly for light mode and "dark" exactly for dark mode. |
| SettingsStore.AvailableThemeIdsDistinct | client/src/store/settingsStore.ts:5-61 | The four themes have distinct ids. |
| SettingsStore.ThemeById | client/src/store/settingsStore.ts:100 | A theme is found exactly for the four known ids, and it is the available theme with that id. |
| SettingsStore.ThemeByIdOfAvailable | client/src/store/settingsStore.ts:100 | Looking up any available theme's id gives that theme. |
| SettingsStore.Toggled | client/src/store/settingsStore.ts:108 | The toggle target is an available theme of the other mode, the light or dark theme itself. |
| SettingsStore.ToggleTwice | client/src/store/settingsStore.ts:106-110 | Toggling twice gives back exactly the light and dark themes. Every dark-mode theme ends at the dark theme. |
| SettingsStore.ToggleTwiceFromBlue | client/src/store/settingsStore.ts:106-110 | Toggling twice from blue ends at dark, not blue. |
| SettingsStore.DocumentElement.constructor | client/src/store/settingsStore.ts:96 | The document element starts with no class. |
| SettingsStore.SettingsStore.constructor | client/src/store/settingsStore.ts:86-91 | The store starts with the light theme, "en", notifications and auto-save on, and "gpt-3.5-turbo". |
| SettingsStore.SettingsStore.State | client/src/store/settingsStore.ts:65-69 | The settings record holds exactly the five fields. |
| SettingsStore.SettingsStore.SetTheme | client/src/store/settingsStore.ts:93-97 | Changes only the theme, and the document class becomes its mode. |
| SettingsStore.SettingsStore.SetThemeById | client/src/store/settingsStore.ts:99-104 | A known id sets that theme. An unknown id changes neither the settings nor the document. |
| SettingsStore.SettingsStore.ToggleTheme | client/src/store/settingsStore.ts:106-110 | Changes only the theme, to one of the other mode, and the document class follows it. |
| SettingsStore.SettingsStore.SetLanguage | client/src/store/settingsStore.ts:112-114 | Changes only the language. |
| SettingsStore.SettingsStore.SetNotifications | client/src/store/settingsStore.ts:116-118 | Changes only the notifications flag. |
| SettingsStore.SettingsStore.SetAutoSave | client/src/store/settingsStore.ts:120-122 | Changes only the auto-save flag. |
| SettingsStore.SettingsStore.SetDefaultModel | client/src/store/settingsStore.ts:124-126 | Changes only the default model. |
| SettingsStore.SettingsStore.ResetSettings | client/src/store/settingsStore.ts:128-137 | Restores exactly the five defaults, leaves the theme list alone and sets the class to "light". |
| SettingsStore.SettingsStore.Rehydrate | client/src/store/settingsStore.ts:141-146 | Restored settings are adopted and the class follows their theme. Nothing stored changes nothing. |
| SettingsStore.BlueToggledTwice | client/src/store/settingsStore.ts:99-110 | Selecting blue by id and toggling twice leaves the dark theme and the class "dark". |
| Config.GetEnvVar | client/src/config/index.ts:60-67 | Gives the value when it is non-empty, else the default, else "". A non-empty default always gives a non-empty result. |
| Config.GetEnvBoolean | client/src/config/index.ts:69-73 | Gives the default for an unset or empty variable, and otherwise true exactly when the lower-cased value is "true". |
| Config.EnvBooleanExamples | client/src/config/index.ts:69-73 | "TRUE" switches a flag on, while "1" and "yes" switch it off even with a true default. |
| Config.GetEnvNumber | client/src/config/index.ts:75-80 | Gives the default for an unset or empty variable or one that does not parse, and otherwise the base-10 parse. |
| Config.EnvNumberExamples | client/src/config/index.ts:75-80 | "300" reads as 300 and "abc" falls back to the default. |
| Config.EnvNumberRoundTrip | client/src/config/index.ts:75-80 | Every integer written in decimal reads back as itself. |
| Config.ListItems | client/src/config/index.ts:85 | Every item is non-empty, trimmed and free of commas. The items are exactly the non-empty trimmed pieces, each as often as it occurs, in source order. |
| Config.GetEnvArray | client/src/config/index.ts:82-86 | Gives the default list for an unset or empty variable, and otherwise the cleaned items. |
| Config.EnvArrayRoundTrip | client/src/config/index.ts:82-86 | Comma-joined clean items read back as the same list. |
| Config.OptionalVar | client/src/config/index.ts:115-122 | An optional setting is present exactly when the variable is non-empty. |
| Config.NodeEnv | client/src/config/index.ts:91-93 | The environment name is never empty, and is "production" exactly when the variable says so. |
| Config.BuildConfig | client/src/config/index.ts:89-144 | Development and production are never both set. Production means the variable says production, and development means the name is "development". The defaulted strings are never empty. |
| Config.EmptyEnvDefaults | client/src/config/index.ts:89-144 | With nothing set, each of the fifteen fields, app name, version and description and error reporting included, takes the default the source names. |
| Config.ConfigWarnings | client/src/config/index.ts:62-63 | A warning is printed exactly for the variables read without a default that are undefined, in reading order. |
| Config.ValidationErrors | client/src/config/index.ts:150-164 | Each of the four messages is present exactly when its check fails, and the list is empty exactly when all checks pass. |
| Config.ValidateConfig | client/src/config/index.ts:147-172 | Collects those messages in order, and throws exactly when there is one and the build is production, with the messages joined by ", ". |
| Config.Initialize | client/src/config/index.ts:174-177 | Start-up builds the configuration and throws exactly when in production an analytics or error-reporting check fails, because the defaults rule out the other two. |
| MockApi.FallbacksQuoteMessage | client/src/services/mockAPI.js:38-65 | The first fall-back reply is the same whatever was asked. The other two contain the message, and the second differs for different messages. |
| MockApi.FirstTriggered | client/src/services/mockAPI.js:31-35 | Finds the first group with a trigger contained in the message, and none exactly when no group has one. |
| MockApi.PickIndex | client/src/services/mockAPI.js:67 | The random pick is one of the three defaults. |
| MockApi.TokenCount | client/src/services/mockAPI.js:125 | The token count lies between 100 and 599. |
| MockApi.GetAIResponse | client/src/services/mockAPI.js:4-68 | Gives the reply of the first group triggered by the lower-cased message, and otherwise the picked fall-back. |
| MockApi.GreetingBeforeCode | client/src/services/mockAPI.js:5-35 | "hello, show me code" gets the greeting, not the code sample. |
| MockApi.ShoutedGreeting | client/src/services/mockAPI.js:28-32 | Matching ignores case: "HEY THERE" gets the greeting. |
| MockApi.Token | client/src/services/mockAPI.js:87 | Every token starts with "mock-jwt-token-". |
| MockApi.TokenEncodesTime | client/src/services/mockAPI.js:87 | The rest of the token reads back as the clock value. |
| MockApi.Login | client/src/services/mockAPI.js:77-91 | Succeeds exactly for the demo email and password, with the demo user. Otherwise fails with "Invalid credentials". |
| MockApi.Register | client/src/services/mockAPI.js:93-108 | Fails with "Email already exists" exactly for the demo email. Otherwise returns a user with the given name and email, the clock as id and a token. |
| MockApi.RegisterIgnoresPassword | client/src/services/mockAPI.js:93-108 | The password never matters to registration. |
| MockApi.DemoAccount | client/src/services/mockAPI.js:77-98 | The demo email cannot register again, and logs in exactly with the demo password. |
| MockApi.ConversationIdOr | client/src/services/mockAPI.js:119 | Gives the given conversation id, or "1" when it is absent or empty. |
| MockApi.SendMessage | client/src/services/mockAPI.js:111-129 | The reply is an assistant message in that conversation, with the chosen reply text, model "gpt-3.5-turbo" and between 100 and 599 tokens. |
| CheckoutPage.Chunks | client/src/pages/CheckoutPage.tsx:46 | The groups of four and the shorter last group. |
| CheckoutPage.FormatCardNumber | client/src/pages/CheckoutPage.tsx:46 | The result is the groups of four of the number without white space, joined by single spaces, with no white space at either end. |
| CheckoutPage.TrimJoin | client/src/pages/CheckoutPage.tsx:46 | The trailing space that `$1 ` leaves after a full last group is exactly what `trim` removes. |
| CheckoutPage.ChunkSizes | client/src/pages/CheckoutPage.tsx:46 | Every group but the last has four characters and the last has one to four. |
| CheckoutPage.ChunksConcat | client/src/pages/CheckoutPage.tsx:46 | The groups put together give the digits back. |
| CheckoutPage.FormatKeepsCharacters | client/src/pages/CheckoutPage.tsx:46 | Removing white space from the formatted number gives the input without white space. |
| CheckoutPage.FormatGroups | client/src/pages/CheckoutPage.tsx:46 | Splitting the result at spaces gives exactly the groups. |
| CheckoutPage.FormatIdempotent | client/src/pages/CheckoutPage.tsx:46-47 | Formatting a formatted number changes nothing. |
| CheckoutPage.FormatLength | client/src/pages/CheckoutPage.tsx:46 | The result has one space between each two groups. |
| CheckoutPage.SixteenDigitsFit | client/src/pages/CheckoutPage.tsx:258 | Sixteen digits format to nineteen characters, the input's `maxLength`. |
| CheckoutPage.CardNumberInput.constructor | client/src/pages/CheckoutPage.tsx:253-259 | The input holds the given value. |
| CheckoutPage.FormatEffect | client/src/pages/CheckoutPage.tsx:43-51 | Writes exactly when the input exists, the number is non-empty and formatting changes it, and then writes the formatted number. |
| CheckoutPage.TypeCardNumber | client/src/pages/CheckoutPage.tsx:43-51 | A typed number shows formatted. The write-back fires no input event; the next run of the effect on the formatted value writes nothing. |
| CheckoutPage.PlanFor | client/src/pages/CheckoutPage.tsx:84 | The table has an entry exactly for "pro" and "enterprise", found under its own key. |
| CheckoutPage.PlanForKeyName | client/src/pages/CheckoutPage.tsx:53-84 | Every key of the table is found under its own name. |
| CheckoutPage.SelectedPlan | client/src/pages/CheckoutPage.tsx:29 | The plan is the query parameter, or "pro" when it is absent or empty. |
| CheckoutPage.DefaultPlanPrices | client/src/pages/CheckoutPage.tsx:29-84 | Without a parameter the page offers Pro at 19. "enterprise" selects Enterprise at 99. Each plan lists six features. |
| CheckoutPage.SchemaErrors | client/src/pages/CheckoutPage.tsx:11-21 | Reports exactly the fields whose rule fails, in schema order. |
| CheckoutPage.ViolationReported | client/src/pages/CheckoutPage.tsx:11-21 | Every failing field is reported. |
| CheckoutPage.SchemaAccepts | client/src/pages/CheckoutPage.tsx:11-21 | The form passes exactly when it has a card number of 16 or more characters, a month of 2 or more, a year of 4 or more, a CVV of 3 or more, and five non-empty other fields. |
| CheckoutPage.FormattedCardPasses | client/src/pages/CheckoutPage.tsx:12 | A formatted sixteen-digit number meets the card-number rule. |
| CheckoutPage.Checkout.constructor | client/src/pages/CheckoutPage.tsx:28-29 | The page starts on the selected plan and not processing. |
| CheckoutPage.Checkout.SelectPlan | client/src/pages/CheckoutPage.tsx:152 | Clicking a plan selects its key. |
| CheckoutPage.Checkout.Submit | client/src/pages/CheckoutPage.tsx:87-105 | A rejected form changes nothing and shows nothing. An accepted one shows the success message for the current plan, goes to "/profile" and ends not processing. |
| CheckoutPage.SuccessMessage | client/src/pages/CheckoutPage.tsx:97 | The toast starts with "Successfully upgraded to ". |
| UserProfile.NameParts | client/src/components/profile/UserProfile.tsx:32-33 | The first name is the name up to its first space, and the last name is everything after that space. A name without a space is all first name. |
| UserProfile.FullName | client/src/components/profile/UserProfile.tsx:42 | The saved name has no white space at its ends. |
| UserProfile.NameRoundTrip | client/src/components/profile/UserProfile.tsx:32-42 | Joining the default first and last names gives back any name without white space at its ends. |
| UserProfile.Defaults | client/src/components/profile/UserProfile.tsx:31-35 | Without a user the fields are empty. Otherwise the email is the user's and the two name parts put back together give the name. |
| UserProfile.Shown | client/src/components/profile/UserProfile.tsx:159-167 | An empty name part shows as "Not provided". |
| UserProfile.ProfileErrors | client/src/components/profile/UserProfile.tsx:11-15 | Each field is reported exactly when its rule fails, and the form passes exactly when all three hold. |
| UserProfile.SingleWordNameNeedsLastName | client/src/components/profile/UserProfile.tsx:11-35 | A one-word name starts with an empty last name, which the schema rejects. |
| UserProfile.ProfilePage.constructor | client/src/components/profile/UserProfile.tsx:20-36 | The page starts with the defaults, not editing and not loading. |
| UserProfile.ProfilePage.StartEditing | client/src/components/profile/UserProfile.tsx:21 | Enters editing and changes nothing else. |
| UserProfile.ProfilePage.Type | client/src/components/profile/UserProfile.tsx:24-36 | Typing changes only the form values. |
| UserProfile.ProfilePage.Cancel | client/src/components/profile/UserProfile.tsx:59-66 | Leaves editing and resets the form to exactly the defaults it started with. |
| UserProfile.ProfilePage.Submit | client/src/components/profile/UserProfile.tsx:38-57 | A rejected form changes nothing. An accepted one saves the trimmed full name and the email, shows the success message and leaves editing. |
| UserProfile.UpdateUser | client/src/components/profile/UserProfile.tsx:45-48 | Replaces the name and email of the signed-in user. Nobody signed in stays nobody. |
| UserProfile.SaveDefaultsKeepsUser | client/src/components/profile/UserProfile.tsx:31-48 | Saving the untouched form never changes a user whose name has no white space at its ends. |
| UserProfile.CurrentPlan | client/src/components/profile/UserProfile.tsx:90 | The plan is the subscription's, or Free without one. |
| UserProfile.CurrentStatus | client/src/components/profile/UserProfile.tsx:91 | The status is the subscription's, or Active without one. |
| UserProfile.PaidPlanName | client/src/components/profile/UserProfile.tsx:325-389 | A checkout plan is never the free plan. |
| UserProfile.PricesAgree | client/src/components/profile/UserProfile.tsx:221-223 | The profile shows the prices the checkout page charges. |
| UserProfile.UpgradeOptions | client/src/components/profile/UserProfile.tsx:319-389 | At most two plans are offered. |
| UserProfile.UpgradeOptionsAreDearer | client/src/components/profile/UserProfile.tsx:319-389 | Upgrades are shown exactly when the plan is not Enterprise, and offer exactly the paid plans dearer than the current one. |
| UserProfile.UpgradeOffers | client/src/components/profile/UserProfile.tsx:319-389 | Free is offered Pro and Enterprise, Pro only Enterprise, and no user counts as Free. |
| UserProfile.UpgradeLinkSelectsPlan | client/src/components/profile/UserProfile.tsx:339-382 | An upgrade link opens the checkout on that plan at the price the profile showed. |
| ModelSelector.ModelIdsDistinct | client/src/components/chat/ModelSelector.tsx:28-86 | The catalogue's ids are distinct. |
| ModelSelector.KeyIdsDistinct | client/src/components/chat/ModelSelector.tsx:28-86 | Two different entries never share an id. |
| ModelSelector.SelectedModel | client/src/components/chat/ModelSelector.tsx:97 | A found model is in the catalogue under that id. None is found exactly when no model has it. |
| ModelSelector.SelectedModelOfCatalogue | client/src/components/chat/ModelSelector.tsx:97 | Looking up any catalogue entry's id gives that entry. |
| ModelSelector.DefaultModelKnown | client/src/components/chat/ModelSelector.tsx:48-56 | The settings' default model is in the catalogue, with 16385 tokens of context. |
| ModelSelector.SelectOptions | client/src/components/chat/ModelSelector.tsx:115-119 | There is one option per model in catalogue order, with the model's id, name and description. |
| ModelSelector.OptionSelectsModel | client/src/components/chat/ModelSelector.tsx:115-128 | Choosing the i-th option selects the i-th model, and no two options share a value. |
| ModelSelector.FormatContextLength | client/src/components/chat/ModelSelector.tsx:108-113 | The label ends in "K" exactly from 1000 on. |
| ModelSelector.ContextLengthReadsBack | client/src/components/chat/ModelSelector.tsx:108-113 | A "K" label reads back as the whole thousands, and any other label as the number itself. |
| ModelSelector.ContextLengthExamples | client/src/components/chat/ModelSelector.tsx:108-113 | 128000, 16385, 8192 and 999 show as "128K", "16K", "8K" and "999". |
| ModelSelector.Selector.constructor | client/src/components/chat/ModelSelector.tsx:95 | The dialog starts closed. |
| ModelSelector.Selector.OpenDetails | client/src/components/chat/ModelSelector.tsx:133-141 | The dialog opens only when details are shown and the current model is known. |
| ModelSelector.Selector.CloseDetails | client/src/components/chat/ModelSelector.tsx:193 | Closes the dialog. |
| ModelSelector.Selector.ChooseModel | client/src/components/chat/ModelSelector.tsx:216-220 | Reports the chosen model's id, which selects that model, and closes the dialog. |
| Text.TrimIdempotent | client/src/components/chat/ChatSidebar.tsx:51 | Trimming twice is trimming once. |
| Text.TrimPadded | client/src/components/chat/ContentRenderer.tsx:117 | White space around a text never changes its trimmed form. |
| Text.ToLowerIdempotent | client/src/components/chat/ChatSidebar.tsx:65-67 | Lower-casing twice is lower-casing once. |
| Text.JoinSplit | client/src/components/profile/UserProfile.tsx:32-33 | Joining the pieces of a split with the separator gives the text back. |
| Text.SplitJoin | client/src/config/index.ts:85 | Splitting a join of separator-free pieces gives the pieces back. |
| Text.ParseIntOfIntToString | client/src/config/index.ts:78 | `parseInt` reads every decimal integer back as itself. |
| Text.RemoveWhitespace | client/src/pages/CheckoutPage.tsx:46 | `replace(/\s/g, '')` keeps exactly the characters that are not white space, each as often as it occurs, in order. |
| Sequences.Filter | client/src/store/chatStore.ts:63 | `filter` keeps exactly the elements that pass, in order. |
| Sequences.FilterAppend | client/src/components/chat/ChatSidebar.tsx:72-96 | Filtering a concatenation filters each part. |
| Sequences.Find | client/src/store/settingsStore.ts:100 | `find` gives an element that passes, and none exactly when no element passes. |

## Left out

- Clock readings, `generateId`, `Date.now()` and `Math.random()` are not computed. They are parameters: `now`, a fresh id, a millisecond count, and a real in [0, 1).
- ChatStore.ChatStore.AddMessage: the source reads the clock twice, once for the timestamp and once for `updatedAt`. The model uses one `now` for both.
- MockApi.Register: the source calls `Date.now()` separately for the id and the token. The model uses one clock value for both.
- `Partial<...>` patches are modelled as one `Option` per field. A key explicitly set to `undefined` in a patch is not modelled.
- `trim` and `toLowerCase` cover ASCII only: the white space characters space, tab, line feed, vertical tab, form feed and carriage return, and the letters A to Z. Unicode white space and case mapping are not modelled.
- The markdown, diagram and syntax-highlighting libraries are outside the model. A view only records which renderer is chosen and what it is given.
- ContentRenderer.CodeHook: the hook's `...props` pass-through and the element types are not modelled.
- Links, tables and blockquotes in the markdown renderer are styling only and are not modelled.
- zustand's `persist` and the storage serialisation are outside the model. `Persisted` states which fields are projected, and `Rehydrate` states the hook that runs on restore.
- The network delays in `mockAPI.js` and the sending, async waits and toasts on the pages are not modelled.
- MockApi.GetAIResponse: the contract states which reply is chosen. What the fall-back replies contain is stated separately, by `FallbacksQuoteMessage`.
- `console.warn` and `console.error` output is not modelled. Config.ConfigWarnings states which variables would be warned about.
- The zod email check in the profile form is the parameter `isEmail`. zod's email validity is not modelled.
- UserProfile.UpdateUser: the auth store's `updateUser` is not part of this model. It is modelled as replacing the name and email of the signed-in user.
- CheckoutPage.Checkout.Submit: it requires the selected plan to be in the table. With any other `plan` parameter the source page fails while rendering, at `currentPlan.icon`, before a submit can happen.
- Plan icons are not modelled on the checkout page. Its plans keep their name, price, colour and feature list. The profile page's plan icons, colours and feature lists are not modelled. Speed icons and float prices are not modelled in the model picker.
- ModelSelector: `contextLength` is a `nat`, so the negative and fractional numbers that JavaScript would allow are not modelled.
- The sidebar's calendar arithmetic is abstracted to a day number and milliseconds within the day. The date parser is the parameter `parse`, where a timestamp that does not parse gives `None`.
- `window.confirm` in the sidebar's delete handler is the boolean parameter `confirmed`.
- The regular expressions are modelled only for the three patterns the classifier and the hook use. `[\s\S]` and `\w` are modelled over ASCII.
- Persisting settings is not modelled; only the restored state and its theme class are.
- SettingsStore.SettingsStore.Rehydrate: the settings store has no `partialize` option, so the stored state includes the theme list. The model takes the stored list to be the built-in one the app wrote and keeps `availableThemes`. A list edited in storage is not modelled.
- Config.EnvNumberRoundTrip: JavaScript numbers are doubles. `parseInt` loses digits beyond 2^53, and `String(n)` switches to exponent notation from 10^21. The model's integers are unbounded, so the round trip holds only for integers within ±9007199254740991 in the source.
- Text.ParseIntOfIntToString: stated over unbounded integers. It matches `parseInt` only for integers within ±9007199254740991, for the same reason.
- Config.GetEnvNumber: the parse yields an unbounded integer. JavaScript's double rounding of long digit strings is not modelled.
