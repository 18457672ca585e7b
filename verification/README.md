# HSwift admin dashboard: the logic inside the views

HSwift is a React admin dashboard for a WhatsApp customer-service platform.
It has tenants with phone numbers, message templates with `{{name}}`
placeholders, conversations, bot flows, users and roles, and API
integrations. The views hold small pieces of string and collection logic.
This project states that logic in Dafny and proves what the views promise
about it.

- **The template editor**: the placeholder scanner behind `extractParams`
  and the live preview `renderPreview` (`TemplateEditor`), and the example
  renderer `renderTemplate` (`Utils`).
- **The chat preview**: its ten-message history (`TemplatePreview`).
- **The threads table**: its pager (`ThreadsView`).
- **String helpers**: the slug builder, the display-name formatter, the
  sidebar's active-item rule and the language-code prefix (`ApisAndTools`,
  `IntegrationDetail`, `AppSidebar`, `LanguageSwitcher`).
- **In-place edits**: the tool-set editor, the agent-flow editor, the
  endpoint tree and the tenant form (`ToolSetConfiguration`,
  `AgentConfiguration`, `BoeIntegrationDetail`, `Tenants`).
- **Searches, groupings, lookups and route guards**: `Conversations`,
  `UsersAndRoles`, `Templates`, `Dashboard`, `BotAnalytics` and `App`.
- **The sample data**: `MockData`.

Two helper modules sit under them:

- `Text`: JavaScript's string operations as the views use them. This
  covers ASCII `toLowerCase`/`toUpperCase`, `includes`, `split`, `join`, a
  literal global `replace` and decimal rendering.
- `Common`: `filter`, `[...new Set(xs)]` and first-index lookup.

Stateful views are classes whose methods update their fields as the React
state setters do. Each such class has a `Valid` invariant where the view
keeps one. The two loops of the source are methods with loop invariants,
each proved equal to a specification function:

- `renderPreview`'s `regex.exec` loop (`TemplateEditor.RenderPreviewOf`);
- `renderTemplate`'s loop over the example keys (`Utils.RenderTemplate`).

The placeholder scanner is modelled position by position, as `regex.exec`
runs `/\{\{([^}]+)\}\}/g`:

- At the leftmost `{{`, the name runs up to the first `}` after it.
- The token matches only when that `}` is followed by another `}` and the
  name is not empty.
- After a match the scan resumes behind the `}}`. Otherwise it resumes one
  character further on.

## Model

| member | source | states |
|---|---|---|
| TemplateEditor.CloseBrace | src/components/features/TemplateEditor.tsx:23 | the run `[^}]+` started at a position ends at or after it and within the text |
| TemplateEditor.MatchAt | src/components/features/TemplateEditor.tsx:23 | a match at `p` closes more than two characters after `p`, with room for `}}` |
| TemplateEditor.NextMatch | src/components/features/TemplateEditor.tsx:56-61 | `regex.exec` from `lastIndex` reports a match that starts at or after it, with a non-empty name and `}}` inside the text |
| TemplateEditor.CloseBraceIsFirst | src/components/features/TemplateEditor.tsx:23 | the run `[^}]+` ends at the first `}` at or after its start, and no `}` lies before it |
| TemplateEditor.CloseBraceAt | src/components/features/TemplateEditor.tsx:23 | a `}` with no `}` before it is the one where the name run stops |
| TemplateEditor.MatchAtIsToken | src/components/features/TemplateEditor.tsx:23 | the expression matches at a position exactly when `{{`, one or more non-`}` characters and `}}` start there, and it reports that token's close |
| TemplateEditor.NextMatchIsToken | src/components/features/TemplateEditor.tsx:56-61 | what `regex.exec` reports from `lastIndex` is a well-formed token |
| TemplateEditor.NextMatchIsLeftmost | src/components/features/TemplateEditor.tsx:56-61 | no token starts between `lastIndex` and the reported match, and when `exec` reports nothing no token starts after `lastIndex` |
| TemplateEditor.MatchDelimiters | src/components/features/TemplateEditor.tsx:61-64 | the reported match has `{{` at its index, `}}` at its end, and a non-empty capture without `}` between them |
| TemplateEditor.FullMatchSplit | src/components/features/TemplateEditor.tsx:63-64 | `match[0]` is `{{`, then `match[1]`, then `}}` |
| TemplateEditor.FullMatchesSpellNames | src/components/features/TemplateEditor.tsx:24 | `content.match(regex)` lists, in scan order, each captured name wrapped in `{{` and `}}`, one text per match |
| TemplateEditor.NamesWellFormed | src/components/features/TemplateEditor.tsx:23 | every captured name is non-empty and contains no `}` |
| TemplateEditor.NamesFrom | src/components/features/TemplateEditor.tsx:23-24 | the captured names of the scan from a position, in order with repeats; each token takes at least five characters (`{{`, a name, `}}`), so there are at most a fifth as many names as characters left |
| TemplateEditor.FullMatches | src/components/features/TemplateEditor.tsx:24 | `content.match(regex)` from a position: at most one full match per five characters; `FullMatchesSpellNames` pins each as its name between braces |
| TemplateEditor.ContentNames | src/components/features/TemplateEditor.tsx:23-24 | the captured names of the whole content, at most one per five characters |
| TemplateEditor.ExtractParams | src/components/features/TemplateEditor.tsx:22-27 | the parameter list has no duplicates, each entry is a non-empty name without `}`, and a name is listed iff some token captures it |
| TemplateEditor.ParamsInFirstSeenOrder | src/components/features/TemplateEditor.tsx:26 | parameters are listed in the order of their first token |
| TemplateEditor.RepeatedNameListedOnce | src/components/features/TemplateEditor.tsx:22-27 | `{{n}} {{m}} {{n}}` captures `[n, m, n]` and lists `[n, m]` |
| TemplateEditor.ParamsOfOnePiece | src/components/features/TemplateEditor.tsx:22-27 | plain text, one token, plain text: the one name is the parameter list |
| TemplateEditor.ParamsOfThreePieces | src/components/features/TemplateEditor.tsx:22-27 | three tokens with distinct names, separated by plain text, give those names in token order |
| TemplateEditor.ParamsOfThreePiecesLast | src/components/features/TemplateEditor.tsx:22-27 | the same when the last token ends the content |
| TemplateEditor.EmptyNameRejected | src/components/features/TemplateEditor.tsx:23 | `{{}}` holds no token: no parameter, and the preview shows it as written |
| TemplateEditor.SplitCloseRejected | src/components/features/TemplateEditor.tsx:23 | `{{a}b}}` holds no token: no parameter, and the preview shows it as written |
| TemplateEditor.SingleTokenParams | src/components/features/TemplateEditor.tsx:22-27 | content that is one token `{{n}}` has the single parameter `n` |
| TemplateEditor.NoTokenNoParams | src/components/features/TemplateEditor.tsx:22-73 | content where `exec` finds no token has no parameters and previews as itself whatever the test values |
| TemplateEditor.PlainText | src/components/features/TemplateEditor.tsx:22-73 | text without `{` has no captured names and previews as itself |
| TemplateEditor.NextMatchShift | src/components/features/TemplateEditor.tsx:61-66 | the scan from `lastIndex` reads only what lies after it: text put in front moves the match and changes nothing else |
| TemplateEditor.NamesShift | src/components/features/TemplateEditor.tsx:24 | text put in front of a position changes none of the names captured after it |
| TemplateEditor.PreviewRoundTrip | src/components/features/TemplateEditor.tsx:61-73 | with an empty map of test values every token shows itself, so the preview is the content (inherited object names left out) |
| TemplateEditor.PreviewDependsOnNames | src/components/features/TemplateEditor.tsx:61-66 | two sets of test values that agree on the effective value of every captured name give the same preview |
| TemplateEditor.PreviewReadsOnlyParams | src/components/features/TemplateEditor.tsx:56-65 | the preview consults the test values of exactly the listed parameters |
| TemplateEditor.PreviewUnfilled | src/components/features/TemplateEditor.tsx:65 | with no non-empty value in the map for any parameter, missing and `''` alike, the preview is the content, tokens included (inherited object names left out) |
| TemplateEditor.ShownValue | src/components/features/TemplateEditor.tsx:65 | a non-empty test value is what its token shows |
| TemplateEditor.Shown | src/components/features/TemplateEditor.tsx:65 | `testValues[paramName] \|\| fullMatch` read as a map: a token never shows as nothing, since an empty or missing value falls back to the token (inherited object names left out) |
| TemplateEditor.ShownWithoutValues | src/components/features/TemplateEditor.tsx:65 | with no entry in the value map a token shows its full match (inherited object names left out) |
| TemplateEditor.ShownAgrees | src/components/features/TemplateEditor.tsx:65 | a token shows the same under two sets of values with the same effective value for its name |
| TemplateEditor.PreviewOfPiece | src/components/features/TemplateEditor.tsx:61-73 | plain text, one token, plain text: the preview is the first text, what the token shows, and the last text |
| TemplateEditor.PreviewOfTwoPieces | src/components/features/TemplateEditor.tsx:58-73 | two tokens between plain text: the scan resumes after the first replaced token, so each token is replaced by what it shows and the text around them is kept |
| TemplateEditor.PartlyFilledPreview | src/components/features/TemplateEditor.tsx:58-73 | with only `a` filled, `{{a}}-{{b}}` shows `X-{{b}}`: a filled token shows its value and an unfilled one stays as typed |
| TemplateEditor.PreviewIsSinglePass | src/components/features/TemplateEditor.tsx:61-67 | a test value is put in once and never scanned again, even when it looks like a token itself |
| TemplateEditor.SingleTokenPreview | src/components/features/TemplateEditor.tsx:61-73 | content that is one token previews as what that token shows |
| TemplateEditor.RenderStep | src/components/features/TemplateEditor.tsx:61-67 | one loop turn: pushing the text before the match and what the match shows, then moving `lastIndex` behind it, keeps "pushed pieces + preview of the rest = preview of the content" |
| TemplateEditor.RenderEnd | src/components/features/TemplateEditor.tsx:69-73 | after the loop, the rest of the text, pushed only when non-empty, completes the preview |
| TemplateEditor.RenderPreviewOf | src/components/features/TemplateEditor.tsx:55-73 | the `exec` loop returns the preview of the content with the given test values |
| TemplateEditor.Preview | src/components/features/TemplateEditor.tsx:52-73 | the preview `PreviewFrom` builds from position 0: content with no token previews as itself; `RenderPreviewOf` proves the loop computes it and `PreviewRoundTrip`, `PreviewReadsOnlyParams` and `PreviewIsSinglePass` state its properties |
| TemplateEditor.EmptyValues | src/components/features/TemplateEditor.tsx:35 | the reduce maps exactly the parameters, each to `''` |
| TemplateEditor.FreshValuesShowContent | src/components/features/TemplateEditor.tsx:29-36 | right after a template loads, the preview is its content unchanged |
| TemplateEditor.Editor.constructor | src/components/features/TemplateEditor.tsx:17-37 | mounting with a template whose content is non-empty sets the parameters to its content's and every test value to `''`; otherwise both start empty |
| TemplateEditor.Editor.LoadTemplate | src/components/features/TemplateEditor.tsx:29-37 | the edited template becomes the new one; parameters and test values are reset only when its content is non-empty and kept otherwise |
| TemplateEditor.Editor.ChangeContent | src/components/features/TemplateEditor.tsx:39-46 | with a template, its content and the parameters follow the edit; without one nothing changes; the test values are never touched |
| TemplateEditor.Editor.ChangeTestValue | src/components/features/TemplateEditor.tsx:48-50 | only the entry of that parameter changes, and template and parameters are kept |
| TemplateEditor.Editor.RenderPreview | src/components/features/TemplateEditor.tsx:52-74 | `''` without a template, else the preview of its content with the current test values |
| TemplateEditor.StripDelimiters | src/components/features/TemplateEditor.tsx:25 | deleting every `{{` and `}}` never lengthens the text and adds no `}` |
| TemplateEditor.ExtractParamsAsWritten | src/components/features/TemplateEditor.tsx:22-27 | the list the code builds, from the stripped full matches, has no duplicates |
| TemplateEditor.StripKeepsPlainName | src/components/features/TemplateEditor.tsx:25 | a full match whose name holds no `{{` strips back to its name |
| TemplateEditor.StripBeforeClose | src/components/features/TemplateEditor.tsx:25 | a name free of `}` and `{{`, followed by `}}`, strips back to the name |
| TemplateEditor.AsWrittenAgreesWithoutInnerBraces | src/components/features/TemplateEditor.tsx:22-27 | when no captured name contains `{{`, the code's list equals the list of captured names deduplicated |
| TemplateEditor.SingleTokenParamsAsWritten | src/components/features/TemplateEditor.tsx:24-26 | for content that is one token, the code lists that token stripped |
| TemplateEditor.InnerOpenStripped | src/components/features/TemplateEditor.tsx:25 | a full match whose name holds an inner `{{` loses that inner `{{` as well |
| TemplateEditor.InnerOpenName | src/components/features/TemplateEditor.tsx:23 | a name with an inner `{{` is still a valid capture, and it is longer than its stripped form |
| TemplateEditor.InnerOpenBraceMisses | src/components/features/TemplateEditor.tsx:25 | for `{{x{{y}}` the code lists `xy`, the capture is `x{{y`, and a test value typed for `xy` never reaches the preview |
| TemplateEditor.StrippedNameMisses | src/components/features/TemplateEditor.tsx:25 | `{{a{{b}}`: the code lists `ab` where the capture is `a{{b` |
| TemplateEditor.WelcomeParams | src/data/mockData.ts:97-98 | the welcome template's content has the parameter list `[name]` |
| TemplateEditor.OrderStatusParams | src/data/mockData.ts:105-106 | the order-status content has `[order_id, status, date]` |
| TemplateEditor.ReminderParams | src/data/mockData.ts:130-131 | the reminder content has `[patient_name, date, time]` |
| TemplateEditor.MockTemplateVariablesAreParams | src/data/mockData.ts:93-134 | each sample template's `variables` is exactly the parameter list of its content, in first-occurrence order |
| Utils.Placeholder | src/lib/utils.ts:22 | `{{key}}` is the key between `{{` and `}}`, four characters longer |
| Utils.Rendered | src/lib/utils.ts:15-28 | without `examples`, or with no keys, the content comes back unchanged |
| Utils.RenderedWith | src/lib/utils.ts:20-25 | the keys' global replaces applied in order; content holding no key's placeholder comes back unchanged |
| Utils.RenderTemplate | src/lib/utils.ts:15-28 | the loop returns the left fold of global replaces over the keys in order, or the content when `examples` is missing |
| Utils.OneKeyReplacesEveryOccurrence | src/lib/utils.ts:21-25 | one key replaces every occurrence of its placeholder: the text between occurrences, none of which holds the placeholder, joined with the value |
| Utils.OneKey | src/lib/utils.ts:21-25 | with a single key the render is one global replace of its placeholder |
| Utils.NoPlaceholderUnchanged | src/lib/utils.ts:21-27 | content holding no key's placeholder comes back unchanged |
| Utils.CopiesLeadingChar | src/lib/utils.ts:24 | a first character that cannot start the placeholder is copied |
| Utils.HiAna | src/lib/utils.ts:21-25 | `Hi {{name}}!` with `name: Ana` renders as `Hi Ana!` |
| Utils.AbsentKeyKept | src/lib/utils.ts:21-25 | a placeholder whose key has no example (`{{id}}`) passes through verbatim |
| Utils.LaterKeyRewritesEarlierValue | src/lib/utils.ts:20-25 | the keys apply in turn, so `{{a}}` with `a: {{b}}, b: x` renders as `x`, while the editor's single-pass preview shows `{{b}}` |
| Utils.TwoKeys | src/lib/utils.ts:20-25 | two keys are two global replaces, the first key first |
| Utils.ReplaceWhole | src/lib/utils.ts:24 | text that is exactly the placeholder becomes the value |
| MockData.AllMessageTemplates | src/data/mockData.ts:83-142 | the templates of all numbers of all tenants are the three sample templates, each with a valid status |
| MockData.AuthenticateUser | src/data/mockData.ts:206-211 | a user comes back exactly for `usuario`/`pass`, and it is the sample admin `usuario` |
| MockData.CountWithStatus | src/data/mockData.ts:43 | the count is zero exactly when no conversation has the status |
| MockData.EachConversationStatusOnce | src/data/mockData.ts:145-194 | each of the four statuses occurs exactly once among the sample conversations, and no other occurs |
| MockData.MockTenantsActive | src/data/mockData.ts:83-142 | both sample tenants are active with one connected number, carrying 156 and 89 conversations |
| Common.Filter | src/pages/Conversations.tsx:41-45 | `filter` keeps only elements that satisfy the predicate and every one that does; `FilterCounts` fixes the number of copies and `FilterIsSubsequence` the order |
| Common.FilterIsSubsequence | src/pages/Conversations.tsx:41 | `filter` keeps the survivors in their original order |
| Common.FilterCounts | src/pages/Conversations.tsx:41-45 | `filter` keeps every copy of a satisfying element and no copy of any other |
| Common.FilterMultiset | src/pages/Conversations.tsx:41-45 | the multiset of survivors is the input's restricted to the satisfying elements |
| Common.FilterKeepsAll | src/pages/Templates.tsx:56-58 | a predicate that holds everywhere keeps the whole list |
| Common.FirstIndex | src/components/features/TemplateEditor.tsx:26 | the first position of an element: it is there and not before |
| Common.Dedupe | src/components/features/TemplateEditor.tsx:26 | `[...new Set(xs)]` holds each element of `xs` once and nothing else |
| Common.DedupeOfDistinct | src/components/features/TemplateEditor.tsx:26 | a list without repetitions comes through unchanged |
| Common.DedupeKeepsFirstSeenOrder | src/components/features/TemplateEditor.tsx:26 | survivors are in the order of their first occurrence |
| Text.LowerChar | src/pages/Templates.tsx:57 | `toLowerCase` on one ASCII character: upper case moves down by 32, everything else is kept |
| Text.UpperChar | src/pages/IntegrationDetail.tsx:12 | `toUpperCase` on one ASCII character: lower case moves up by 32, everything else is kept |
| Text.Lower | src/pages/Templates.tsx:57 | `toLowerCase` keeps the length and folds every character |
| Text.MatchesIgnoringCase | src/pages/Templates.tsx:57 | `field.toLowerCase().includes(term.toLowerCase())`: an empty term matches every field, and a matching term is no longer than the field |
| Text.TrimStart | src/pages/Tenants.tsx:35 | white space removed from the front: a suffix of the text, starting with a non-space, with only white space cut off |
| Text.TrimEnd | src/pages/Tenants.tsx:35 | white space removed from the end: a prefix of the text, ending with a non-space, with only white space cut off |
| Text.Trim | src/pages/Tenants.tsx:35 | `trim()`: what is left neither starts nor ends with white space |
| Text.IsBlank | src/components/features/TemplatePreview.tsx:44 | `s.trim() === ''`: white space throughout, so the empty text is blank; `BlankMeansTrimmedEmpty` ties it to `Trim` |
| Text.BlankMeansTrimmedEmpty | src/pages/Tenants.tsx:35 | a text is blank exactly when `trim` leaves nothing of it |
| Text.EmptyTermMatches | src/pages/Templates.tsx:56-58 | every text includes the empty search term |
| Text.Split | src/pages/IntegrationDetail.tsx:12 | `split` on one character gives at least one piece, none holding the separator |
| Text.JoinSplit | src/pages/IntegrationDetail.tsx:12 | joining a split with the same separator gives the text back |
| Text.Join | src/pages/IntegrationDetail.tsx:13 | `parts.join(sep)`: the joined text begins with the first part; `JoinSplit` and `SplitJoin` make it the inverse of `split` |
| Text.SplitJoin | src/pages/Conversations.tsx:144 | splitting words joined by a separator none of them holds gives the words back |
| Text.SplitAtFirst | src/pages/Conversations.tsx:144 | a split cuts at the first separator and goes on with the rest |
| Text.SplitOn | src/lib/utils.ts:24 | a split on a pattern gives at least one piece |
| Text.JoinSplitOn | src/lib/utils.ts:24 | joining the pieces with the pattern restores the text |
| Text.SplitOnPiecesExcludePattern | src/lib/utils.ts:24 | no piece between occurrences contains the pattern |
| Text.ReplaceAllIsSplitJoin | src/lib/utils.ts:24 | the global replace is the split on the pattern joined with the value |
| Text.ReplaceAll | src/lib/utils.ts:24 | the global replace of a literal pattern; replacing the pattern by itself changes nothing, and `ReplaceAllIsSplitJoin` pins its value |
| Text.ReplaceAllAbsent | src/lib/utils.ts:24 | text without the pattern is not changed by the replace |
| Text.ReplaceAllConcat | src/lib/utils.ts:24 | when no occurrence crosses the boundary of `a + b`, the replace works on each side separately |
| Text.DecimalString | src/pages/Dashboard.tsx:27 | `String(n)` is a non-empty string of digits |
| Text.DecimalRoundTrip | src/pages/Dashboard.tsx:27 | reading `String(n)` back as a decimal gives `n` |
| Text.DecimalStringInjective | src/components/features/conversations/ThreadsView.tsx:30 | different numbers render differently |
| Templates.FilteredTemplates | src/pages/Templates.tsx:56-58 | the search keeps, in gallery order, exactly the cards whose name contains the term ignoring case, each with all its copies |
| Templates.EmptySearchShowsAll | src/pages/Templates.tsx:56-58 | an empty search shows all five cards in order |
| Templates.PreviewNotSearched | src/pages/Templates.tsx:56-58 | a card that matches only by its preview text is not shown |
| Templates.NoBraceNoPlaceholder | src/pages/Templates.tsx:17 | text without `{` holds no `{{`, has no parameters and previews as itself in the editor |
| Templates.PreviewsHaveNoPlaceholder | src/pages/Templates.tsx:10-51 | no gallery preview holds a `{{` placeholder: their variable parts use square brackets |
| Dashboard.ActiveTenantsStat | src/pages/Dashboard.tsx:25-31 | the Active Tenants figure is a digit string whose value is the number of tenants |
| Dashboard.SampleActiveTenants | src/pages/Dashboard.tsx:27 | with the two sample tenants it reads `2` |
| Dashboard.RecentConversations | src/pages/Dashboard.tsx:48 | the first five conversations in order, or all of them when there are fewer |
| Dashboard.SampleRecentIsAll | src/pages/Dashboard.tsx:48 | all four sample conversations are listed |
| Dashboard.StatusLabel | src/pages/Dashboard.tsx:135 | only the first `_` becomes a space; the length and every other character are kept |
| Dashboard.LabelAtFirstUnderscore | src/pages/Dashboard.tsx:135 | text up to the first `_` is kept, that `_` becomes a space, and the rest is kept with its underscores |
| Dashboard.BotRespondingLabel | src/pages/Dashboard.tsx:135 | `bot_responding` is shown as `bot responding` |
| Dashboard.OnlyFirstUnderscore | src/pages/Dashboard.tsx:135 | `a_b_c` is shown as `a b_c` |
| Dashboard.ColorOf | src/pages/Dashboard.tsx:50-58 | the muted colour goes exactly to a status outside the four |
| Dashboard.IconOf | src/pages/Dashboard.tsx:60-68 | the alert icon exactly for waiting and escalated, the check mark exactly for resolved, and the speech bubble for anything unknown |
| Dashboard.StatusTables | src/pages/Dashboard.tsx:50-68 | the four statuses have four distinct colours; waiting and escalated share an icon; bot responding shows the fallback icon |
| TemplatePreview.Appended | src/components/features/TemplatePreview.tsx:27-33 | the new message goes last, and of the old history plus it only the ten most recent are kept |
| TemplatePreview.AppendedAll | src/components/features/TemplatePreview.tsx:27-33 | the history after several arrivals: a history of at most ten stays at most ten; `HistoryIsLastTen` gives its value |
| TemplatePreview.FullHistoryDropsOldest | src/components/features/TemplatePreview.tsx:29-31 | with ten messages already shown, the oldest one goes |
| TemplatePreview.AppendedKeepsLastTen | src/components/features/TemplatePreview.tsx:27-33 | one more message keeps the history equal to the last ten of everything that arrived |
| TemplatePreview.HistoryIsLastTen | src/components/features/TemplatePreview.tsx:27-33 | however many messages arrive, the history is the last ten of them all, in arrival order |
| TemplatePreview.ChatPreview.constructor | src/components/features/TemplatePreview.tsx:14-15 | the preview opens with no messages and an empty input |
| TemplatePreview.ChatPreview.AddTemplateMessage | src/components/features/TemplatePreview.tsx:18-35 | the template rendered with its example values arrives from the other side, the history keeps at most ten, and the input line is kept |
| TemplatePreview.ChatPreview.ChangeInput | src/components/features/TemplatePreview.tsx:111 | the input line takes the typed text and the history is kept |
| TemplatePreview.ChatPreview.SendMessage | src/components/features/TemplatePreview.tsx:43-62 | a blank input changes nothing; otherwise it is sent as the user's message, the history keeps at most ten, and the input is cleared |
| ThreadsView.ThreadAt | src/components/features/conversations/ThreadsView.tsx:29-41 | thread `i` has the id `CONV-` followed by `10234 + i`, status `i % 3`, message `i % 7`, and is `i` hours old |
| ThreadsView.ThreadIdsDistinct | src/components/features/conversations/ThreadsView.tsx:29-30 | there are 53 threads and no two share an id, so ids can key the rows |
| ThreadsView.TotalPages | src/components/features/conversations/ThreadsView.tsx:49 | `Math.ceil(n / 10)`: the fewest pages of ten that hold `n` items |
| ThreadsView.ThreadsFillSixPages | src/components/features/conversations/ThreadsView.tsx:49 | the 53 threads fill six pages |
| ThreadsView.PageSlice | src/components/features/conversations/ThreadsView.tsx:51-55 | page `p` shows the items from `(p - 1) * 10`, ten or up to the end, and none past the end |
| ThreadsView.PageSizes | src/components/features/conversations/ThreadsView.tsx:51-55 | pages 1 to 5 show ten threads and page 6 the last three |
| ThreadsView.PagesUpToIsPrefix | src/components/features/conversations/ThreadsView.tsx:51-55 | the first `k` pages, end to end, are the first `10 k` items |
| ThreadsView.PagesUpTo | src/components/features/conversations/ThreadsView.tsx:51-55 | pages `1..k` end to end hold `min(10 k, n)` items |
| ThreadsView.NextPageExtendsPrefix | src/components/features/conversations/ThreadsView.tsx:51-55 | page `k` starts where page `k - 1` ended |
| ThreadsView.PagesCoverAll | src/components/features/conversations/ThreadsView.tsx:49-55 | every item is on exactly one page: all pages in order give the list back |
| ThreadsView.DisplayedMessage | src/components/features/conversations/ThreadsView.tsx:100-101 | up to fifty characters are shown whole; a longer message shows its first fifty and `...` |
| ThreadsView.CannedMessagesDisplay | src/components/features/conversations/ThreadsView.tsx:31-39 | of the seven canned messages only the last, exactly fifty characters long, is shown whole |
| ThreadsView.StatusBadge | src/components/features/conversations/ThreadsView.tsx:63-74 | open, closed and pending in any letter case get their own badge; any other status gets a plain badge showing it as written |
| ThreadsView.GeneratedStatusesHaveBadges | src/components/features/conversations/ThreadsView.tsx:40 | each generated status gets its own badge |
| ThreadsView.Pager.constructor | src/components/features/conversations/ThreadsView.tsx:47 | the table opens on page 1 |
| ThreadsView.Pager.CurrentThreads | src/components/features/conversations/ThreadsView.tsx:51-55 | the current page shows one to ten threads, the ones from `(page - 1) * 10` on |
| ThreadsView.Pager.HandlePageChange | src/components/features/conversations/ThreadsView.tsx:57-61 | a page in `1..totalPages` becomes current; any other request is ignored |
| ThreadsView.Pager.Previous | src/components/features/conversations/ThreadsView.tsx:115-121 | one page back, or no change on the first page |
| ThreadsView.Pager.Next | src/components/features/conversations/ThreadsView.tsx:138-146 | one page on, or no change on the last page |
| ApisAndTools.RunsToDash | src/pages/ApisAndTools.tsx:45-47 | `replace(/C+/g, '-')`: each run of class characters becomes one `-`, so the text never grows by more than one character |
| ApisAndTools.KeepWordChars | src/pages/ApisAndTools.tsx:46 | removing the non-word characters never lengthens the text |
| ApisAndTools.TrimLeadingDashes | src/pages/ApisAndTools.tsx:48 | the result is a suffix of the text, does not start with `-`, and only `-` was removed |
| ApisAndTools.TrimTrailingDashes | src/pages/ApisAndTools.tsx:49 | the result is a prefix of the text, does not end with `-`, and only `-` was removed |
| ApisAndTools.LowerHasNoUpper | src/pages/ApisAndTools.tsx:44 | lower-cased text holds no capital letter |
| ApisAndTools.RunsToDashKeeps | src/pages/ApisAndTools.tsx:45 | after the run pass no character of the class is left and no capital appears |
| ApisAndTools.KeepWordCharsGivesSlugChars | src/pages/ApisAndTools.tsx:46 | after the non-word pass, lower-cased text holds only `a-z`, `0-9`, `_` and `-` |
| ApisAndTools.CollapsedHasNoDoubleDash | src/pages/ApisAndTools.tsx:47 | after the dash pass no `--` is left |
| ApisAndTools.CollapseKeepsSlugChars | src/pages/ApisAndTools.tsx:47 | the dash pass keeps slug characters slug characters |
| ApisAndTools.TrimmedIsSlug | src/pages/ApisAndTools.tsx:48-49 | trimming both ends of slug characters without `--` gives a slug |
| ApisAndTools.Slugify | src/pages/ApisAndTools.tsx:41-50 | `slugify`'s five passes in order (lower-case, white-space runs to `-`, non-word characters dropped, `-` runs collapsed, end dashes trimmed): the slug is never longer than the name; `SlugifyGivesSlug`, `SlugifyIdempotent` and `SlugifyWords` state what it is |
| ApisAndTools.SlugifyGivesSlug | src/pages/ApisAndTools.tsx:41-50 | every output of `slugify` holds only `a-z`, `0-9`, `_` and `-` (no whitespace, no capitals), has no `--`, and has no `-` at either end |
| ApisAndTools.RunsToDashOfNone | src/pages/ApisAndTools.tsx:45-47 | text without a class character passes the run pass unchanged |
| ApisAndTools.CollapseOfSingleDashes | src/pages/ApisAndTools.tsx:47 | text without `--` passes the dash pass unchanged |
| ApisAndTools.SlugifyOfSlug | src/pages/ApisAndTools.tsx:41-50 | a slug comes out of `slugify` unchanged |
| ApisAndTools.SlugifyIdempotent | src/pages/ApisAndTools.tsx:41-50 | `slugify(slugify(s)) == slugify(s)` for every text |
| ApisAndTools.RunsToDashConcat | src/pages/ApisAndTools.tsx:45-47 | the run pass works piece by piece; the second piece starts inside a run exactly when the first ends with a class character |
| ApisAndTools.KeepWordCharsConcat | src/pages/ApisAndTools.tsx:46 | the non-word pass works piece by piece |
| ApisAndTools.SpacesStage | src/pages/ApisAndTools.tsx:44-45 | words joined by single spaces, after lower-casing and the space pass, are the lower-cased words joined by `-` |
| ApisAndTools.WordsStage | src/pages/ApisAndTools.tsx:46 | the non-word pass on `-`-joined words cleans each word and keeps the dashes |
| ApisAndTools.DashStage | src/pages/ApisAndTools.tsx:47-49 | non-empty words without `-` joined by single dashes pass the dash and trim passes unchanged |
| ApisAndTools.SlugifyWords | src/pages/ApisAndTools.tsx:41-50 | a name of words separated by single spaces becomes its cleaned, lower-cased words joined by `-` |
| ApisAndTools.TwoWordSlug | src/pages/ApisAndTools.tsx:41-50 | two words: the first word's slug, `-`, the second's |
| ApisAndTools.CapitalPairSlug | src/pages/ApisAndTools.tsx:41-50 | a capitalised word and a lower-case word: the capital is lowered and the space becomes `-` |
| ApisAndTools.BoeToolsSlug | src/pages/ApisAndTools.tsx:54 | `Boe tools` becomes `boe-tools` |
| ApisAndTools.ThreeWordSlug | src/pages/ApisAndTools.tsx:41-50 | three words: their slugs joined by `-` |
| ApisAndTools.CapitalTripleSlug | src/pages/ApisAndTools.tsx:41-50 | a capitalised word and two lower-case words: the capital is lowered and each space becomes `-` |
| ApisAndTools.SearchInternetToolSlug | src/pages/ApisAndTools.tsx:61 | `Search internet tool` becomes `search-internet-tool` |
| ApisAndTools.AccentedWordSlug | src/pages/ApisAndTools.tsx:44-46 | `\w` is ASCII-only: in a capitalised word with one non-ASCII letter the capital is lowered and that letter is dropped |
| ApisAndTools.AccentedPairSlug | src/pages/ApisAndTools.tsx:41-50 | such a word followed by a capitalised word: the accented letter is dropped and the space becomes `-` |
| ApisAndTools.IntegracionBoeSlug | src/pages/ApisAndTools.tsx:12 | `Integración Boe` becomes `integracin-boe`: the `ó` is dropped, not folded to `o` |
| ApisAndTools.IntegrationLink | src/pages/ApisAndTools.tsx:138-151 | only a connected integration gets a link, `/apis-and-tools/api/` followed by the slug of its name |
| ApisAndTools.ToolSetLink | src/pages/ApisAndTools.tsx:175 | a tool set's link is `/tools/` followed by the slug of its name, and that suffix is a slug |
| IntegrationDetail.Capitalize | src/pages/IntegrationDetail.tsx:12 | the first character is upper-cased and the rest kept; the empty word stays empty |
| IntegrationDetail.FormatDisplayName | src/pages/IntegrationDetail.tsx:9 | a missing route parameter shows as `''` |
| IntegrationDetail.CapitalizeAll | src/pages/IntegrationDetail.tsx:12 | `map(capitalise)`: one capitalised piece per piece, in place |
| IntegrationDetail.DisplayName | src/pages/IntegrationDetail.tsx:10-13 | split at `-`, capitalise, join with spaces; a slug with no `-` is one capitalised word, and `DisplayNamePointwise` gives every character |
| IntegrationDetail.DisplayNameOfEmpty | src/pages/IntegrationDetail.tsx:9-13 | the empty slug shows as `''` |
| IntegrationDetail.DisplayNamePointwise | src/pages/IntegrationDetail.tsx:9-13 | the display name has the slug's length; each `-` becomes a space, the first character and each one right after a `-` is upper-cased, and every other character is kept, so `a--b` shows as `A  B` |
| IntegrationDetail.DisplayNameHasNoDash | src/pages/IntegrationDetail.tsx:10-13 | no `-` is left in a display name |
| IntegrationDetail.DisplayNameCons | src/pages/IntegrationDetail.tsx:10-13 | a piece without `-`, a `-` and the rest show as the capitalised piece, a space and the rest's display name |
| IntegrationDetail.BoeDisplayName | src/pages/IntegrationDetail.tsx:9-13 | `integracin-boe`, the Boe integration's link slug, shows as `Integracin Boe`: the dropped `ó` does not come back |
| AppSidebar.ActiveMeansSameOrBelow | src/components/layout/AppSidebar.tsx:47 | an item is active exactly when the path is its url or its url followed by `/` and more |
| AppSidebar.IsActive | src/components/layout/AppSidebar.tsx:47 | `currentPath === path \|\| currentPath.startsWith(path + '/')`: an active url is a prefix of the path |
| AppSidebar.BarePrefixNotActive | src/components/layout/AppSidebar.tsx:47 | a path that merely starts with the url, without a `/` after it, does not activate the item |
| AppSidebar.UsersXNotActive | src/components/layout/AppSidebar.tsx:36-47 | `/usersX` does not activate Users & Roles |
| AppSidebar.NestedActivatesParent | src/components/layout/AppSidebar.tsx:47 | every path below a url activates it |
| AppSidebar.IntegrationPathActivatesApisAndTools | src/components/layout/AppSidebar.tsx:34-47 | an integration page under `/apis-and-tools/api/` keeps APIs & Tools highlighted |
| AppSidebar.BothActiveNested | src/components/layout/AppSidebar.tsx:47 | two urls active on one path are equal or one lies below the other |
| AppSidebar.AtMostOneActiveAmong | src/components/layout/AppSidebar.tsx:47 | among urls none of which is or lies below another, at most one is active on any path |
| AppSidebar.SingleSegmentsUnambiguous | src/components/layout/AppSidebar.tsx:29-39 | distinct one-segment urls never lie below one another |
| AppSidebar.NavigationSingleSegments | src/components/layout/AppSidebar.tsx:29-39 | each of the nine urls is a single segment |
| AppSidebar.NavigationDistinct | src/components/layout/AppSidebar.tsx:29-39 | the nine urls are distinct, and so are the nine titles |
| AppSidebar.NavigationUnambiguous | src/components/layout/AppSidebar.tsx:29-39 | no url of the menu is or lies below another |
| AppSidebar.AtMostOneItemActive | src/components/layout/AppSidebar.tsx:29-47 | whatever the path, at most one menu item is highlighted |
| LanguageSwitcher.CurrentLanguage | src/components/layout/LanguageSwitcher.tsx:27 | `split('-')[0]`: the longest start of the tag without `-`, the whole tag when it has none |
| LanguageSwitcher.RegionalTagGivesLanguage | src/components/layout/LanguageSwitcher.tsx:27 | a regional tag gives its language part |
| LanguageSwitcher.SpanishSpainIsSpanish | src/components/layout/LanguageSwitcher.tsx:19-27 | `es-ES` selects `es` |
| LanguageSwitcher.Find | src/components/layout/LanguageSwitcher.tsx:28 | `find` gives the first option with that code, or nothing exactly when no option has it |
| LanguageSwitcher.CurrentFlag | src/components/layout/LanguageSwitcher.tsx:28 | a code no option has shows the US flag |
| LanguageSwitcher.LanguageOptionsOrder | src/components/layout/LanguageSwitcher.tsx:17-22 | English, Spanish, German and Portuguese in that order, with distinct codes |
| LanguageSwitcher.SupportedCodeShowsItsFlag | src/components/layout/LanguageSwitcher.tsx:17-28 | a supported code shows exactly its own flag |
| ToolSetConfiguration.LookupToolSet | src/pages/ToolSetConfiguration.tsx:58-59 | the tool set the route names, or `boe-tools` when the name is missing or not a key of the table (inherited object names left out) |
| ToolSetConfiguration.ToolSetLinksOpenTheirSet | src/pages/ToolSetConfiguration.tsx:12-59 | the slugs of the two tool-set cards' names (`/tools/<slug>` links on the integrations page) are keys of `mockToolSets`, so each card opens its own set and not the fallback |
| ToolSetConfiguration.MockToolSetsWellFormed | src/pages/ToolSetConfiguration.tsx:12-55 | each tool set has a tool, tool ids are distinct within a set, and so are the argument names within a tool |
| ToolSetConfiguration.Toggled | src/pages/ToolSetConfiguration.tsx:64-68 | the tools with that id have `enabled` negated; every other tool and every other field is kept |
| ToolSetConfiguration.ToggleTwiceRestores | src/pages/ToolSetConfiguration.tsx:64-68 | flipping the same switch twice gives the list back |
| ToolSetConfiguration.WithArgDescription | src/pages/ToolSetConfiguration.tsx:73 | every argument of that name gets the description; names, types and the other arguments are kept |
| ToolSetConfiguration.ArgEdited | src/pages/ToolSetConfiguration.tsx:75-77 | only the tools with that id have their arguments edited |
| ToolSetConfiguration.EditKeepsSelectedInStep | src/pages/ToolSetConfiguration.tsx:70-78 | when the selected copy still has its list entry's arguments, one edit gives both the same arguments, the edited one holding the value |
| ToolSetConfiguration.ToolSetEditor.constructor | src/pages/ToolSetConfiguration.tsx:58-62 | the page opens on the route's tool set (or `boe-tools`), its tools, and the first of them selected |
| ToolSetConfiguration.ToolSetEditor.SelectTool | src/pages/ToolSetConfiguration.tsx:92 | clicking a card selects that tool and keeps the list |
| ToolSetConfiguration.ToolSetEditor.HandleToolToggle | src/pages/ToolSetConfiguration.tsx:64-68 | the list is toggled and the selected copy is not, so the two can disagree |
| ToolSetConfiguration.ToolSetEditor.HandleArgDescChange | src/pages/ToolSetConfiguration.tsx:70-78 | the selected copy is edited by argument name whatever its id; in the list only the tools with that id change |
| Flow.Merge | src/pages/AgentConfiguration.tsx:253 | `{ ...a, ...b }` has every field of either, `b`'s value where both have one |
| Flow.NodeIds | src/pages/AgentConfiguration.tsx:17-148 | the ids of the nodes, in order |
| AgentConfiguration.GraphFor | src/pages/AgentConfiguration.tsx:214-224 | `boet` and `maui` get their read-only graphs; any other name, a missing one included, gets the editable Hermes graph |
| AgentConfiguration.SmallGraphsWellFormed | src/pages/AgentConfiguration.tsx:17-118 | in the Hermes and Boet graphs node ids are distinct and every edge joins two nodes of the graph |
| AgentConfiguration.MauiGraphWellFormed | src/pages/AgentConfiguration.tsx:121-148 | the same for the Maui graph |
| AgentConfiguration.GraphsWellFormed | src/pages/AgentConfiguration.tsx:214-224 | every graph the page can show has distinct node ids and edges between its own nodes |
| AgentConfiguration.ReadOnlyTitle | src/pages/AgentConfiguration.tsx:297 | the name with its first letter upper-cased, then `'s Workflow` |
| AgentConfiguration.MergedInto | src/pages/AgentConfiguration.tsx:250-257 | the nodes with that id get the new data merged into theirs; the others are kept |
| AgentConfiguration.MergedIntoKeepsIds | src/pages/AgentConfiguration.tsx:250-257 | merging keeps every node id |
| AgentConfiguration.AgentEditor.constructor | src/pages/AgentConfiguration.tsx:211-227 | the page opens on the agent's graph with nothing selected |
| AgentConfiguration.AgentEditor.ChangeAgent | src/pages/AgentConfiguration.tsx:230-234 | another agent reloads nodes and edges and clears the selection |
| AgentConfiguration.AgentEditor.HandleNodeClick | src/pages/AgentConfiguration.tsx:238-242 | a click selects the node only on the editable graph, and changes nothing else |
| AgentConfiguration.AgentEditor.HandlePaneClick | src/pages/AgentConfiguration.tsx:244-246 | nothing is selected afterwards, and the graph is kept |
| AgentConfiguration.AgentEditor.UpdateNodeData | src/pages/AgentConfiguration.tsx:248-259 | without a selection nothing changes; otherwise the list entries with the selected id and the selected copy both get the new data merged in |
| AgentConfiguration.AgentEditor.HandlePromptChange | src/pages/AgentConfiguration.tsx:153-155 | with a selection, the node list gets the selected node's data with the new prompt merged into that node's entry, and the selected copy gets the same data; every other field is kept; without a selection nothing changes |
| AgentConfiguration.ReadOnlyHasNoSelection | src/pages/AgentConfiguration.tsx:238-242 | on a read-only graph nothing is ever selected, so no edit reaches a node |
| BoeIntegrationDetail.InitialSelection | src/pages/BoeIntegrationDetail.tsx:132 | the page opens with `get-users`, the first endpoint of the first folder, selected |
| BoeIntegrationDetail.FolderIds | src/pages/BoeIntegrationDetail.tsx:84-88 | exactly the ids of the folders of the level, not of their descendants |
| BoeIntegrationDetail.Toggle | src/pages/BoeIntegrationDetail.tsx:90-100 | the folder's id is removed when present and added otherwise; every other id is kept |
| BoeIntegrationDetail.ToggleTwiceRestores | src/pages/BoeIntegrationDetail.tsx:90-100 | toggling one folder twice restores the open set |
| BoeIntegrationDetail.EndpointTree.constructor | src/pages/BoeIntegrationDetail.tsx:83-88 | a new tree level starts with each of its folders open |
| BoeIntegrationDetail.EndpointTree.ToggleFolder | src/pages/BoeIntegrationDetail.tsx:90-100 | the open set becomes the toggled one |
| BoeIntegrationDetail.ItemView | src/pages/BoeIntegrationDetail.tsx:104-124 | an item is drawn as a folder exactly when it is one, at its level, open as its level's set says |
| BoeIntegrationDetail.TreeView | src/pages/BoeIntegrationDetail.tsx:102-127 | one view per item, in order, each open exactly when its id is in the level's open set |
| BoeIntegrationDetail.ChildrenOnlyWhenOpen | src/pages/BoeIntegrationDetail.tsx:106-114 | a closed folder draws no children; an open one draws each child in order, one level deeper |
| BoeIntegrationDetail.FreshTreeShowsAllOpen | src/pages/BoeIntegrationDetail.tsx:84-114 | a fresh level draws every folder open |
| BoeIntegrationDetail.ToggleChangesOneView | src/pages/BoeIntegrationDetail.tsx:90-114 | closing a folder hides its children and leaves every other item's view as it was |
| BoeIntegrationDetail.FilteredEndpoints | src/pages/BoeIntegrationDetail.tsx:134-139 | an empty search shows everything; otherwise exactly the top-level folders whose name contains the term ignoring case, in order and with all their copies, and never an endpoint |
| BoeIntegrationDetail.NameMatches | src/pages/BoeIntegrationDetail.tsx:134-139 | only a folder passes, whose name is at least as long as the term; with an empty term every folder does |
| BoeIntegrationDetail.MethodBadge | src/pages/BoeIntegrationDetail.tsx:73-81 | a known method gets its own colour, any other method grey |
| BoeIntegrationDetail.SampleVerbsColoured | src/pages/BoeIntegrationDetail.tsx:12-71 | every endpoint of the sample tree, nested or not, has a coloured method, so the grey fallback is never drawn for it |
| BoeIntegrationDetail.KnownMethodsDistinctColors | src/pages/BoeIntegrationDetail.tsx:74-79 | GET, POST, PUT and DELETE get sky, green, amber and red |
| Conversations.ColumnsAreTheStatuses | src/pages/Conversations.tsx:30-35 | the four columns are the four conversation statuses, each once |
| Conversations.FilteredConversations | src/pages/Conversations.tsx:41-45 | the conversations whose contact name or last message contains the term ignoring case, or whose phone contains it as typed, in order, each with all its copies |
| Conversations.ConversationMatches | src/pages/Conversations.tsx:41-45 | the search rule: name or last message ignoring case, phone as typed; an empty term matches every conversation |
| Conversations.EmptySearchKeepsAll | src/pages/Conversations.tsx:41-45 | an empty search keeps every conversation |
| Conversations.ByStatus | src/pages/Conversations.tsx:47-49 | a column holds exactly the filtered conversations with its status, in order |
| Conversations.ColumnTotalStep | src/pages/Conversations.tsx:121-127 | the columns' card total splits into what the first conversation adds and the total of the rest |
| Conversations.ColumnTotal | src/pages/Conversations.tsx:121-127 | the cards the columns hold between them; with nothing to show there are none |
| Conversations.HitsOfDistinct | src/pages/Conversations.tsx:30-35 | among distinct column ids a status is taken by one column when it is one of them, by none otherwise |
| Conversations.ColumnsPartition | src/pages/Conversations.tsx:121-127 | distinct column ids that cover every status present hold every conversation exactly once between them |
| Conversations.ColumnTotalEmpty | src/pages/Conversations.tsx:187 | with nothing to show, the columns hold no card |
| Conversations.BoardShowsEveryMatchOnce | src/pages/Conversations.tsx:41-49 | whatever the search, the four columns show each matching conversation once, when every status is one of the four |
| Conversations.SampleBoardShowsEveryMatchOnce | src/data/mockData.ts:145-194 | the sample conversations meet that condition |
| Conversations.Column | src/pages/Conversations.tsx:121-190 | a column's badge counts its cards, and it shows the empty state exactly when no filtered conversation has its status |
| Conversations.Board | src/pages/Conversations.tsx:121 | one column per status, in column order |
| Conversations.FirstLetter | src/pages/Conversations.tsx:144 | `n[0]`: the first character, or nothing for an empty word |
| Conversations.InitialsOf | src/pages/Conversations.tsx:144 | at most one letter per word, and none exactly when every word is empty |
| Conversations.Initials | src/pages/Conversations.tsx:144 | the avatar fallback holds no space |
| Conversations.InitialsHaveNoSpace | src/pages/Conversations.tsx:144 | words without spaces give initials without spaces |
| Conversations.InitialsOfConcat | src/pages/Conversations.tsx:144 | the initials of two runs of words are the first run's followed by the second's, so an empty word adds nothing |
| Conversations.InitialsOfNonEmptyWords | src/pages/Conversations.tsx:144 | of non-empty words, one initial per word: its first character, in order |
| Conversations.InitialsOfName | src/pages/Conversations.tsx:144 | a name of words joined by single spaces splits back into those words, so its initials are theirs |
| Conversations.InitialsAreFirstLetters | src/pages/Conversations.tsx:144 | a name of non-empty words joined by single spaces shows one initial per word, the word's first character |
| Conversations.OneWord | src/pages/Conversations.tsx:144 | a name without a space is one word |
| Conversations.TwoWordInitials | src/pages/Conversations.tsx:144 | a first and a last name give their two first letters |
| Conversations.JohnSmithInitials | src/pages/Conversations.tsx:144 | John Smith is shown as `JS` |
| Conversations.IconOf | src/pages/Conversations.tsx:51-59 | the speech bubble exactly for a status that is not a column |
| Conversations.ColorOf | src/pages/Conversations.tsx:61-69 | the muted colour exactly for a status that is not a column |
| Conversations.StatusTables | src/pages/Conversations.tsx:51-69 | waiting and escalated share the warning triangle, bot responding gets the bot and resolved the check mark; the four colours are distinct |
| UsersAndRoles.FilteredUsers | src/pages/UsersAndRoles.tsx:54-58 | the users whose name or e-mail contains the term ignoring case, in order, each with all its copies |
| UsersAndRoles.FilteredRoles | src/pages/UsersAndRoles.tsx:60-63 | the roles whose name contains the term ignoring case, in order, each with all its copies |
| UsersAndRoles.UserMatches | src/pages/UsersAndRoles.tsx:54-58 | the user search rule: an empty term matches every user, and a match is no longer than the name or the e-mail |
| UsersAndRoles.EmptySearchListsAll | src/pages/UsersAndRoles.tsx:54-63 | an empty search lists every user and every role |
| UsersAndRoles.DescriptionNotSearched | src/pages/UsersAndRoles.tsx:60-63 | a role that matches only by its description is not listed |
| UsersAndRoles.Checked | src/pages/UsersAndRoles.tsx:170 | a box is ticked exactly when the role's group lists the permission; a missing role or group leaves it unticked |
| UsersAndRoles.EveryRoleHasGrants | src/pages/UsersAndRoles.tsx:21-35 | every listed role has an entry in the permission table, with the three groups |
| UsersAndRoles.AdminHoldsEverything | src/pages/UsersAndRoles.tsx:29-41 | the admin role ticks every box of the table |
| UsersAndRoles.SystemHoldsNothing | src/pages/UsersAndRoles.tsx:34 | the system role ticks none |
| UsersAndRoles.EveryRoleWithinAdmin | src/pages/UsersAndRoles.tsx:29-35 | no role is granted anything the admin role is not |
| UsersAndRoles.InitialRoleIsAdmin | src/pages/UsersAndRoles.tsx:52 | the page opens with Admin selected |
| UsersAndRoles.UserIcon | src/pages/UsersAndRoles.tsx:43-47 | the bot exactly for an agent, the shield exactly for the system, a person otherwise |
| Tenants.FilteredTenants | src/pages/Tenants.tsx:29-32 | the tenants whose name or description contains the term ignoring case, in order, each with all its copies |
| Tenants.TenantMatches | src/pages/Tenants.tsx:29-32 | the tenant search rule: an empty term matches every tenant, and a match is no longer than the name or the description |
| Tenants.EmptySearchListsAll | src/pages/Tenants.tsx:29-32 | an empty search lists every tenant |
| Tenants.CreatedMessage | src/pages/Tenants.tsx:59 | the confirmation starts with `Tenant "` followed by the tenant's name |
| Tenants.NewTenant | src/pages/Tenants.tsx:44-51 | the new tenant has the typed name and description, no numbers, and status `active` |
| Tenants.TenantsPage.constructor | src/pages/Tenants.tsx:23-26 | the page opens on the sample tenants, an empty search, and the dialog closed on an empty form |
| Tenants.TenantsPage.SetName | src/pages/Tenants.tsx:102 | the name field takes the typed text; everything else is kept |
| Tenants.TenantsPage.SetDescription | src/pages/Tenants.tsx:111 | the description field takes the typed text; everything else is kept |
| Tenants.TenantsPage.SetDialogOpen | src/pages/Tenants.tsx:84 | the dialog opens or closes and the form is kept |
| Tenants.TenantsPage.SetSearchTerm | src/pages/Tenants.tsx:136 | the search takes the typed text; everything else is kept |
| Tenants.TenantsPage.HandleCreateTenant | src/pages/Tenants.tsx:34-61 | a blank name gives the error toast and changes nothing; otherwise the tenant is appended, the form is cleared, the dialog closes and the success toast names it |
| Tenants.TotalConversations | src/pages/Tenants.tsx:191 | no number's count exceeds the total, which is 0 without numbers |
| Tenants.TotalConversationsAppend | src/pages/Tenants.tsx:191 | the total grows by the count of each number added at the end |
| Tenants.SampleTotals | src/pages/Tenants.tsx:191 | the sample tenants' cards show 156 and 89 conversations |
| Tenants.ShownNumbers | src/pages/Tenants.tsx:200 | the first two numbers, or all when fewer |
| Tenants.MoreNumbers | src/pages/Tenants.tsx:208-212 | the `+n more` line appears exactly with more than two numbers, `n` counting the ones not listed |
| Tenants.BadgeOf | src/pages/Tenants.tsx:63-71 | the active badge exactly for `active`, the inactive one for anything else |
| Tenants.NewTenantCard | src/pages/Tenants.tsx:44-212 | a new tenant's card shows the active badge, no conversations and no numbers |
| BotAnalytics.StatsFor | src/components/features/analytics/BotAnalytics.tsx:161 | a node's stats are its entry, or zero count and conversion without one |
| BotAnalytics.StatsData | src/components/features/analytics/BotAnalytics.tsx:161-168 | the stats as the two data fields `count` and `conversion` |
| BotAnalytics.Processed | src/components/features/analytics/BotAnalytics.tsx:160-170 | a processed node keeps its id and position, gets the analytics node type, and its data is the node's data with the stats spread over it |
| BotAnalytics.ProcessNodes | src/components/features/analytics/BotAnalytics.tsx:160-171 | every node processed, in order, ids kept |
| BotAnalytics.StatsOverrideData | src/components/features/analytics/BotAnalytics.tsx:165-168 | the stats replace any same-named data fields, and every other field of the node is kept |
| BotAnalytics.ProcessedNodes | src/components/features/analytics/BotAnalytics.tsx:156-171 | `processedNodes` for an agent: one processed node per node of its graph, in order |
| BotAnalytics.ConversionClass | src/components/features/analytics/BotAnalytics.tsx:112-113 | high from 80, low below 50, medium between |
| BotAnalytics.TrendUp | src/components/features/analytics/BotAnalytics.tsx:129 | the arrow points up exactly for the high band |
| BotAnalytics.HermesWellFormed | src/components/features/analytics/BotAnalytics.tsx:14-58 | Hermes' node ids are distinct, its edges join its nodes, and every node has stats |
| BotAnalytics.BoetWellFormed | src/components/features/analytics/BotAnalytics.tsx:14-70 | the same for Boet |
| BotAnalytics.MauiWellFormed | src/components/features/analytics/BotAnalytics.tsx:14-93 | the same for Maui |
| BotAnalytics.GraphsWellFormed | src/components/features/analytics/BotAnalytics.tsx:95-99 | every agent of the graph table has stats, distinct node ids, edges between its own nodes and stats for each node, so the zero fallback is never shown |
| BotAnalytics.InitialView | src/components/features/analytics/BotAnalytics.tsx:154-171 | the view opens on Maui's fourteen nodes |
| App.EffectivePlan | src/hooks/useUser.ts:7 | the plan is `free` exactly when the claim is missing, empty or `free`; any other plan is the claim itself |
| App.ProtectedRoute | src/App.tsx:39-58 | the spinner while loading, a redirect to `/login` when signed out, the page inside the layout otherwise |
| App.PlanProtectedRoute | src/App.tsx:28-37 | the free plan is sent to `/membership`, any other plan sees the page |
| App.FindFrom | src/App.tsx:66-146 | the first route from a position on that matches the path, or none exactly when none does |
| App.FixedSegmentIsLower | src/App.tsx:66-146 | a fixed route segment matches exactly the path segments that lower-case to its name, the router's case-insensitive match |
| App.SegmentMatches | src/App.tsx:66-146 | one segment: a fixed one matched ignoring ASCII case (`FixedSegmentIsLower`), a `:param` by any non-empty text |
| App.Matches | src/App.tsx:66-146 | a pattern matches a path of as many segments, each matching its own; `AtMostOneRoute` shows no path matches two routes |
| App.Redirects | src/App.tsx:28-58 | whether a guard's view ends in a `Navigate`; `NoRedirectWhileLoading` and `RedirectTargetsSettle` state when it does not |
| App.Guarded | src/App.tsx:67-145 | public pages as they are, the others behind the sign-in guard, with the plan guard inside it where the route has one |
| App.Resolve | src/App.tsx:66-146 | the first matching route's page behind its guards, or the not-found page when no route matches; fixed segments match without regard to ASCII case |
| App.ResolveIgnoresCase | src/App.tsx:66-146 | two paths whose segments differ only in the case of their letters show the same thing |
| App.CapitalisedDashboard | src/App.tsx:69-73 | `/Dashboard` shows what `/dashboard` shows: the dashboard in the layout once signed in |
| App.LowerNameMatches | src/App.tsx:66-146 | a one-segment path spelled as a lower-case route name matches that route |
| App.RouteKeysDistinct | src/App.tsx:67-145 | every route starts with a fixed segment, and no two share both length and first segment |
| App.DifferentKeysDisjoint | src/App.tsx:67-145 | patterns that differ in length or first segment match no common path |
| App.AtMostOneRoute | src/App.tsx:67-145 | no path matches two routes |
| App.OnlyMatchIsFirst | src/App.tsx:66-146 | so any matching route is the one the router picks |
| App.GuardTable | src/App.tsx:67-145 | the plan guard sits exactly on conversations, templates, agent management, APIs & tools, the integration detail and analytics; only landing and login are public |
| App.NoRedirectWhileLoading | src/App.tsx:42-51 | while the sign-in state loads nothing redirects: guarded pages show the spinner, and other pages show as usual |
| App.SignedOutGoesToLogin | src/App.tsx:53-55 | signed out, every route but the two public ones sends to `/login` |
| App.PlanGuardOutcome | src/App.tsx:28-37 | signed in on the free plan, a plan-guarded route shows the layout around a redirect to `/membership`; on another plan it shows the page |
| App.SignedInOnlyOutcome | src/App.tsx:57 | signed in, a route with only the sign-in guard shows its page in the layout whatever the plan |
| App.RedirectTargetsSettle | src/App.tsx:68-140 | `/login` always shows the login page, and a signed-in user sent to `/membership` sees it instead of being redirected again |
| App.IntegrationDetailRoute | src/App.tsx:107-113 | `/apis-and-tools/api/<name>` shows the integration detail page for any non-empty name |

## Left out

- JSX rendering, Tailwind classes and the `cn` helper (`src/lib/utils.ts:4-6`): presentation, and calls into clsx and tailwind-merge.
- Clocks and locale formatting (`Date.now()` ids, `toLocaleTimeString`, `toISOString`, `toLocaleString`, `toLocaleDateString`): ids and times are parameters of the methods that need them, and formatted dates are opaque strings.
- The chat preview's scroll-to-bottom effect (`src/components/features/TemplatePreview.tsx:37-41`): a DOM side effect.
- `formatCount`, the pie-chart percentages and the Membership progress value: floating-point formatting and chart rendering.
- `src/contexts/AuthContext.tsx`, `src/main.tsx`, `src/pages/Login.tsx` and `src/components/ErrorMessage.tsx`: local storage, OIDC redirects and the DOM mount. The auth state and the plan claim are parameters of the route guards. `src/hooks/useUser.ts` is modelled only for its `'free'` default.
- ReactFlow's `addEdge`, `onConnect` and node dragging (`src/pages/AgentConfiguration.tsx:236`): library behaviour. The node and edge tables are modelled, not the canvas.
- i18n `t` and `changeLanguage`: the language tag is a parameter; translated strings are not modelled.
- Toasts: a toast becomes a returned value or an error field of the view's state. Their display is not modelled.
- React-router path matching: a path is a list of segments, and the route table is matched by fixed segments, compared without regard to ASCII case as the router does by default, and `:param` segments. Nested routers, query strings and trailing slashes are not modelled.
- `QueryClient`, `Toaster` and the router providers in `src/App.tsx`: plumbing with no logic.
- NotFound is not part of this model beyond being the screen chosen for an unmatched path.
- Case folding is ASCII only: the model's `toLowerCase`/`toUpperCase` leave every non-ASCII character unchanged, and the router's case-insensitive match folds ASCII letters only. The model takes `\s` (`src/pages/ApisAndTools.tsx:45`) and `trim` as the six ASCII white-space characters of `Text.IsSpace`; JavaScript also counts Unicode spaces such as U+00A0, U+2028 and U+FEFF, which the model does not. `\w` is ASCII in JavaScript as in the model.
- Utils.RenderTemplate: keys are assumed to hold no regular-expression metacharacters or digits, and values no `$`, because the source splices the key into a `RegExp` unescaped and uses the value as a replacement pattern.
- Strings are sequences of Unicode scalar values, where JavaScript's `length`, `substring` and `[i]` count UTF-16 code units. Text made only of characters below U+10000 agrees; text with characters above (emoji, say) does not.
- DisplayedMessage (`ThreadsView.DisplayedMessage`): counts characters, not UTF-16 units, so a message of thirty emoji (sixty units) is shown whole by the model where the page cuts it and adds `...`.
- FirstLetter (`Conversations.FirstLetter`): takes the first character, where `n[0]` takes the first UTF-16 unit; for a name starting with an emoji the page shows half a surrogate pair and the model the whole emoji. InitialsOf, Initials and InitialsAreFirstLetters inherit this.
- Object lookups are map lookups. A JavaScript object also answers for names it inherits from `Object.prototype` (`constructor`, `toString`, `hasOwnProperty`, `__proto__` and the like); the model does not. The lines below name the members this affects.
- Shown (`TemplateEditor.Shown`): `testValues[name]` for an inherited name with no own entry is a function or object, which is truthy and shown as its text (`function toString() { [native code] }`); the model shows the token. The preview members built on it state the map reading.
- PreviewRoundTrip (`TemplateEditor.PreviewRoundTrip`): holds for content whose names are not inherited object properties; `{{toString}}` with no test values shows the function's text in the page.
- PreviewUnfilled (`TemplateEditor.PreviewUnfilled`): "missing" means no entry in the map; a missing inherited name is truthy in the page and is replaced.
- ShownWithoutValues (`TemplateEditor.ShownWithoutValues`): with an empty object the page shows `{{constructor}}` as the constructor's text; the model shows the token.
- RenderPreview (`TemplateEditor.Editor.RenderPreview`): inherits the map reading of Shown. After a content edit the test values are not reset, so a newly typed `{{toString}}` is affected.
- LookupToolSet (`ToolSetConfiguration.LookupToolSet`): `/tools/constructor` (or any inherited name) finds a function in the page, whose `tools` is undefined, and the page throws on `tools[0]`; the model falls back to `boe-tools` as for any unknown name.
- constructor (`ToolSetConfiguration.ToolSetEditor.constructor`): opens through LookupToolSet, so it shares that line's gap: for an inherited name the page fails where the model opens `boe-tools`.
- MethodBadge (`BoeIntegrationDetail.MethodBadge`): `colors[method] || …` answers for an inherited name; for the method `toString` the page puts the function's text in the class list, where the model gives grey. Every method of the sample tree is one of the four keys (`SampleVerbsColoured`), so the page's own data never reaches this case.
- Checked (`UsersAndRoles.Checked`): `permissionsByRole[roleId]?.[key]?.includes(perm)` reads inherited names too; for the group key `constructor` of a listed role the page throws (the `Object` function has no `includes`), and a role id such as `toString` reads a function, where the model leaves the box unticked. The page passes only the ids of `mockRoles` and the keys of `allPermissions`, all of them own entries of the table (`EveryRoleHasGrants`).
- StatsFor (`BotAnalytics.StatsFor`): `agentData[node.id] || { count: 0, conversion: 0 }` answers for an inherited name; for a node id `constructor` the page spreads the `Object` function's properties, where the model gives zero stats. Every node of the three graphs has its own entry (`GraphsWellFormed`), so the page's own data never reaches this case.
- constructor (`TemplateEditor.Editor.constructor`), LoadTemplate and ChangeContent (`TemplateEditor.Editor`): the parameters, and the keys reset to `''`, come from the capture-group list `ExtractParams` that the finding below gives as intended. The page's `extractParams` strips every `{{`/`}}` from the whole match. The two differ only for a name holding `{{` (`{{a{{b}}`: `a{{b` here, `ab` in the page), as `TemplateEditor.AsWrittenAgreesWithoutInnerBraces` proves.
- `src/pages/IntegrationDetail.tsx` is not mounted by the route table: `/apis-and-tools/api/:integrationName` shows BoeIntegrationDetail (`src/App.tsx:107-113`). `formatDisplayName` is modelled as the page defines it.
- Nested folders of the endpoint tree each own their open set (`src/pages/BoeIntegrationDetail.tsx:84-88`). The model holds one `EndpointTree` per level and does not build the tree of component instances.
- The conversation detail dialog in `src/pages/Conversations.tsx`: only its open/close is view state, and nothing is computed there.
- The dashboard's static `mockAnalytics` figures and charts, and the purely presentational pages: Landing, Membership, Analytics, AssistantAnalytics, TemplateAnalytics, GeneralAnalytics, AppLayout, LandingNav, LoadingSpinner and the flag images.

## Findings

The token pattern `/\{\{([^}]+)\}\}/g` captures the name `a{{b` in `{{a{{b}}`, and `renderPreview` looks that capture up. `extractParams` instead strips every `{{` and `}}` from the whole match and lists `ab`. `TemplateEditor.ExtractParamsAsWritten` models the code as written, and the lemmas beside it prove the difference. The rest of the model uses the capture-group reading.

| source | as written | input that shows it | evidently intended | confidence | as-written member | corrected member |
|---|---|---|---|---|---|---|
| src/components/features/TemplateEditor.tsx:25 | the name is the full match with every `{{` and `}}` removed, so an inner `{{` disappears too | `{{a{{b}}` gives `ab`, while `renderPreview` looks the token up as `a{{b`, so a test value typed for `ab` never shows | the name is the capture group `[^}]+`, `a{{b`, as `renderPreview` uses it | not executed | TemplateEditor.StrippedNameMisses | TemplateEditor.ExtractParams |
