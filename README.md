# Portfolio chat widget: keyword router and transcript

A Dafny model of the chat widget embedded in a personal portfolio page
(`src/components/Chatbot.tsx`). The widget answers a visitor's question from
a fixed knowledge table of four sections: skills, experience, education and
projects. It lower-cases the question, walks the table in order and answers
with the first section that has a keyword occurring anywhere in the question.
If no section matches, it gives a fixed general reply. Sending a question
appends the visitor's message and the bot's answer to the transcript. An
answer that came from a section is tagged with that section's key. That key
is also one of the page's section anchors.

Files:

- `text.dfy` (module `Text`): the three JavaScript string primitives the
  widget relies on. `trim` uses the ECMAScript whitespace and line-terminator
  set. `toLowerCase` covers ASCII letters only. `includes` is a
  left-to-right search, proved to be substring containment.
- `knowledge.dfy` (module `Knowledge`): the knowledge table with its exact
  answers and keywords, the page anchors, and the first-match search with
  its characterisation over any table.
- `chatbot.dfy` (module `Chatbot`): the message record, the greeting,
  `findRelevantSection` as a loop proved against the search, the bot reply
  and its tags, and the `ChatWindow` class. That class holds the transcript
  and the input text, and `HandleSendMessage` updates them.

## Model

| member | source | states |
|---|---|---|
| `Text.TrimEmptyIff` | src/components/Chatbot.tsx:58 | `trim()` gives the empty string exactly when every character is whitespace; otherwise the trimmed text neither starts nor ends with whitespace |
| `Text.LowerStrIsLowerCase` | src/components/Chatbot.tsx:48 | the lower-cased query has no capital letter left, and lower-casing leaves a string unchanged exactly when it has none |
| `Text.LowerStrIdempotent` | src/components/Chatbot.tsx:48 | lower-casing twice is the same as lower-casing once |
| `Text.IncludesIff` | src/components/Chatbot.tsx:50 | `includes` holds exactly when the keyword occurs at some position of the query (plain substring containment) |
| `Text.IncludesLowerCase` | src/components/Chatbot.tsx:48-50 | an occurrence of a word in the query is an occurrence of the lower-cased word in the lower-cased query |
| `Knowledge.MentionsIff` | src/components/Chatbot.tsx:50 | `keywords.some(...)` holds exactly when one of the section's keywords is a substring of the query |
| `Knowledge.FirstMatchPicksFirst` | src/components/Chatbot.tsx:49-52 | for the first section in table order that the query mentions, the search returns that section's own key and content |
| `Knowledge.FirstMatchFallsBack` | src/components/Chatbot.tsx:49-54 | when no section is mentioned the search returns `general` with the fixed reply |
| `Knowledge.FirstMatchCases` | src/components/Chatbot.tsx:49-54 | every result is either the fallback with no section mentioned, or the route of the first mentioned section |
| `Knowledge.TableKeys` | src/components/Chatbot.tsx:28-45 | the table has four sections whose keys are distinct, differ from `general` and are anchors of the page |
| `Knowledge.KeywordsLowerCase` | src/components/Chatbot.tsx:31-43 | every keyword in the table is already lower case |
| `Chatbot.FindRelevantSection` | src/components/Chatbot.tsx:47-55 | the loop over the table returns exactly the first-match route of the lower-cased query |
| `Chatbot.RoutesToGeneralIff` | src/components/Chatbot.tsx:48-54 | the route is `general` exactly when no keyword of any section is a substring of the lower-cased query, and then it carries the fixed general reply |
| `Chatbot.RoutesToSectionIff` | src/components/Chatbot.tsx:49-52 | the answer comes from section i exactly when section i is mentioned and no earlier section is (first match wins, in both directions) |
| `Chatbot.RoutedSectionIsAnchor` | src/components/Chatbot.tsx:49-54 | every route is the fallback or a table section's key and content, and a non-general key is one of skills, experience, education or projects |
| `Chatbot.RoutingIgnoresCase` | src/components/Chatbot.tsx:48 | routing the query and routing its lower-cased form give the same answer |
| `Chatbot.KeywordInAnyCaseIsRouted` | src/components/Chatbot.tsx:48-51 | a keyword of section i, spelled in any mix of cases inside the query, routes the query to section i or an earlier one, never to `general` |
| `Chatbot.BackendNeverRoutesToProjects` | src/components/Chatbot.tsx:29-52 | a query containing "backend" is answered from skills or experience, so the projects keyword "backend" never decides a route |
| `Chatbot.BackendRoutesToExperience` | src/components/Chatbot.tsx:29-52 | the query "backend", in any capitalisation, is answered from the experience section, not from projects, which lists "backend" too |
| `Chatbot.EmailRoutesToEducation` | src/components/Chatbot.tsx:29-52 | the query "email", in any capitalisation, is answered from education, because it contains the keyword "ai" (matching is not whole-word) |
| `Chatbot.ReplyTagging` | src/components/Chatbot.tsx:67-73 | the bot reply has the routed content; `source` and `sectionId` are equal, present exactly when the route is not `general`, and then name the routed section |
| `Chatbot.ExchangeKeepsWellFormed` | src/components/Chatbot.tsx:60-75 | appending a user message and its routed reply keeps the transcript as the greeting followed by (non-blank question, routed answer) pairs |
| `Chatbot.TranscriptTagsAreAnchors` | src/components/Chatbot.tsx:71-72 | in such a transcript only bot messages carry tags, `source` equals `sectionId`, and every tag is a page anchor |
| `Chatbot.ChatWindow.constructor` | src/components/Chatbot.tsx:19-26 | a fresh widget shows only the greeting and has an empty input |
| `Chatbot.ChatWindow.SetInput` | src/components/Chatbot.tsx:175 | typing replaces the input text, leaves the transcript unchanged and keeps the transcript invariant |
| `Chatbot.ChatWindow.HandleSendMessage` | src/components/Chatbot.tsx:57-77 | a blank input changes nothing; otherwise the transcript grows by exactly the raw user message and the routed reply, earlier entries are kept, the input is cleared, and the transcript invariant is kept |

## Left out

- Unicode case mapping: `Text.Lower` lower-cases the ASCII letters A to Z only. `toLowerCase` also maps other scripts, sometimes to longer strings.
- UTF-16: strings are sequences of Unicode scalar values, not UTF-16 code units. Every keyword is ASCII, so `includes` on them behaves the same.
- Message ids: `Date.now()` is read twice, once per message. Each reading is a `nat` parameter of `HandleSendMessage`. The ids are kept as numbers, not as their decimal strings.
- `navigateToSection` (src/components/Chatbot.tsx:79-98): element lookup, the highlight element, timers and smooth scrolling are browser side effects.
- Open/close state of the chat window (src/components/Chatbot.tsx:18, 109) and all rendering: presentation only.
- The rest of the page (contact form mail delivery, theme toggle, navigation sidebar, static sections): not part of the widget's logic.
- Streamed-reply parsing, section markers, history windowing and the in-flight guard: no code for them exists in the widget, so there is nothing to model.
