# Khet-Mitra: the application core in Dafny

Khet-Mitra is a web assistant for Indian farmers. This project models the
part of its client that holds state and makes decisions, and proves
properties of that model. The model covers:

- **Translation** (`useTranslation`, `src/hooks/use-translation.ts`). The function
  `t(key, options)` resolves a dotted key through the nested locale tables of the
  current language. A namespace the language lacks falls back to English, and a
  key that resolves to nothing falls back to the literal `namespace.key`. The
  function then replaces every `{{name}}` placeholder whose name is an option key.
- **Session** (`AuthProvider`, `src/context/auth-context.tsx`). The logged-in user,
  a `loading` flag and the browser storage entry `khet-mitra_user`, which is read
  once on mount and rewritten by `login`, `logout` and both profile updates.
- **Sidebar** (`SidebarProvider`, `src/context/sidebar-provider.tsx`). The derived
  `open` state (mobile vs. desktop hover), `setOpen`, `toggleSidebar` and the
  Ctrl/Cmd+B shortcut.
- **Login page** (`src/app/login/page.tsx`). The form schema, the Aadhaar-card scan
  that fills the form and the submit that logs the user in.
- **Chat widget** (`src/components/chat/chat-widget.tsx`). The transcript that resets
  to a welcome message on opening, and a send that appends the user's message and
  then exactly one bot message.

Modules:

| file | module | contents |
|---|---|---|
| `wrappers.dfy` | `Wrappers` | `Option`, `Result` |
| `jstext.dfy` | `JsText` | JavaScript white space (`\s`, `trim`), stripping, UTF-16 `length` |
| `translation.dfy` | `Translation` | locale tables, nested lookup, fallbacks, placeholder interpolation |
| `auth.dfy` | `Auth` | `User`, storage, the `AuthProvider` class |
| `sidebar.dfy` | `Sidebar` | derived open state, the `SidebarProvider` class |
| `login.dfy` | `Login` | form schema, the `LoginPage` class |
| `chat.dfy` | `Chat` | messages, the `ChatWidget` class |

State that React keeps in `useState` cells is a class whose fields are those cells.
A handler that `await`s is split at the await into a `Begin…` method and a
`Finish…` method, so that the state seen while the request is pending is stated.
One more method runs the handler from start to end. The answers of the AI flows
(OCR of the Aadhaar card, the chat bot) are parameters of these methods.

## Model

| member | source | states |
|---|---|---|
| JsText.TrimStart | src/components/chat/chat-widget.tsx:54 | the result is a suffix of the input, only white space was removed, and it does not start with white space |
| JsText.TrimEnd | src/components/chat/chat-widget.tsx:54 | the result is a prefix of the input, only white space was removed, and it does not end with white space |
| JsText.BlankIffAllWhitespace | src/components/chat/chat-widget.tsx:54 | `!input.trim()` holds exactly when every character of the input is white space |
| JsText.StripWhitespace | src/app/login/page.tsx:57 | `replace(/\s/g, '')` never lengthens the string and leaves no white space in it |
| JsText.StripKeepsWhitespaceFree | src/app/login/page.tsx:57 | a string without white space is returned unchanged |
| JsText.StripAllWhitespace | src/app/login/page.tsx:57 | a run of white space is deleted entirely |
| JsText.StripIdempotent | src/app/login/page.tsx:57 | stripping twice equals stripping once |
| JsText.StripConcat | src/app/login/page.tsx:57 | stripping a concatenation strips each part and keeps their order |
| JsText.Utf16Length | src/app/login/page.tsx:23 | `length` lies between the character count and twice that |
| JsText.Utf16LengthOfBmp | src/app/login/page.tsx:23 | for text inside the Basic Multilingual Plane, `length` is the character count |
| Translation.Step | src/hooks/use-translation.ts:39 | in `acc && acc[part]`, a falsy accumulator is passed on unchanged |
| Translation.Split | src/hooks/use-translation.ts:39 | `split('.')` yields at least one segment, and no segment contains the separator |
| Translation.JoinSplit | src/hooks/use-translation.ts:39 | joining the segments of a split with the separator gives the path back |
| Translation.SplitJoin | src/hooks/use-translation.ts:39 | splitting a join of separator-free segments gives the segments back |
| Translation.SplitWithoutSeparator | src/hooks/use-translation.ts:39 | a path without `.` is one segment |
| Translation.SplitFirstSegment | src/hooks/use-translation.ts:39 | `head.rest` splits into `head` followed by the segments of `rest` |
| Translation.DescendAppend | src/hooks/use-translation.ts:38-40 | the `reduce` over `p + q` is the reduce over `p` continued over `q` |
| Translation.DescendFalsy | src/hooks/use-translation.ts:38-40 | once the accumulator is falsy, every later segment returns it unchanged |
| Translation.MissingSegmentAbsorbs | src/hooks/use-translation.ts:38-40 | a segment missing anywhere on the path makes the whole lookup `undefined` |
| Translation.NestedValueOfPlainKey | src/hooks/use-translation.ts:38-40 | a key without `.` is one property access |
| Translation.NestedValueDescends | src/hooks/use-translation.ts:38-40 | a dotted key resolves its first segment, then the rest below it |
| Translation.Lookup | src/hooks/use-translation.ts:46-47 | the looked-up text is never empty, because `namespace.key` replaces a falsy result |
| Translation.EnglishOnlyForMissingNamespace | src/hooks/use-translation.ts:46 | English is consulted exactly when the current language's namespace is falsy |
| Translation.FallbackIsPerNamespace | src/hooks/use-translation.ts:46-47 | a key missing from a present namespace yields `namespace.key` even when English has it |
| Translation.UnresolvedYieldsQualifiedKey | src/hooks/use-translation.ts:47 | a missing or empty text yields exactly `namespace.key`, and a non-empty text that is not `namespace.key` never does |
| Translation.Placeholder | src/hooks/use-translation.ts:51 | the pattern is `{{`, the key, then `}}` |
| Translation.Translate | src/hooks/use-translation.ts:45-56 | the loop over the option keys computes the specification function `Translated`: lookup, then one global replacement per key in key order |
| Translation.WithoutOptionsIsLookup | src/hooks/use-translation.ts:49-53 | without options, or with an empty options object, the result is the looked-up text |
| Translation.Substitute | src/hooks/use-translation.ts:49-53 | the reference meaning of the options keeps the template's length, piece by piece |
| Translation.Fill | src/hooks/use-translation.ts:51 | filling one placeholder name keeps the template's length |
| Translation.ReplaceSkipsPrefix | src/hooks/use-translation.ts:51 | a global replacement leaves a prefix in which no occurrence starts untouched |
| Translation.LiteralHasNoMatch | src/hooks/use-translation.ts:51 | no placeholder occurrence starts inside brace-free literal text |
| Translation.OtherPlaceholderHasNoMatch | src/hooks/use-translation.ts:51 | no occurrence of `{{name}}` starts inside `{{other}}` for a different brace-free name |
| Translation.ReplaceFillsPlaceholder | src/hooks/use-translation.ts:51 | one global replacement over a well-formed template fills exactly the placeholders of that key |
| Translation.InterpolateSubstitutes | src/hooks/use-translation.ts:49-53 | the sequential replacements equal the simultaneous substitution: a placeholder becomes its first matching option's value, and every other placeholder stays |
| Translation.UnboundPlaceholderStays | src/hooks/use-translation.ts:49-53 | a placeholder whose name is no option key is left in place |
| Translation.UnboundName | src/hooks/use-translation.ts:50 | a name that is no option key has no binding |
| Translation.TranslationFillsTemplate | src/hooks/use-translation.ts:45-56 | for options with plain keys and `$`-free, brace-free values, `t(key, options)` on a well-formed looked-up template is that template with its bound placeholders substituted |
| Auth.OrEmpty | src/context/auth-context.tsx:45-46 | `value \|\| ''` gives the value when present and `''` otherwise |
| Auth.WithDefaults | src/context/auth-context.tsx:43-47 | `login` keeps name and Aadhaar; an absent photo or location becomes `''` and a present one is kept, each field on its own, so a complete user is unchanged |
| Auth.AfterLoad | src/context/auth-context.tsx:29-40 | the mount effect keeps the stored user, removes the session key exactly when its text is non-empty and does not parse, and keeps every other entry unchanged |
| Auth.AfterLoadIdempotent | src/context/auth-context.tsx:29-40 | running the mount effect twice changes storage no more than once |
| Auth.AfterLoadLeavesNoGarbage | src/context/auth-context.tsx:32-37 | after the mount effect, an unparsable value under the key can only be the empty string |
| Auth.AuthProvider.constructor | src/context/auth-context.tsx:25-26 | the provider mounts with no user and `loading` true |
| Auth.AuthProvider.InitialLoad | src/context/auth-context.tsx:29-40 | the stored user is adopted, unparsable non-empty text is removed, `loading` ends, and storage then mirrors the user |
| Auth.AuthProvider.Login | src/context/auth-context.tsx:42-50 | the user becomes the defaulted record, which is also written under the key, and storage mirrors the user |
| Auth.AuthProvider.Logout | src/context/auth-context.tsx:52-56 | the user is cleared, the key is removed, and storage mirrors the user |
| Auth.AuthProvider.UpdateProfilePhoto | src/context/auth-context.tsx:58-64 | with a user, only the photo changes and is saved; without one, nothing changes |
| Auth.AuthProvider.UpdateUserLocation | src/context/auth-context.tsx:66-72 | with a user, only the location changes and is saved; without one, nothing changes |
| Auth.UseAuth | src/context/auth-context.tsx:82-88 | outside a provider the hook fails with `useAuth must be used within an AuthProvider`, and inside it returns the provider |
| Sidebar.StateOf | src/context/sidebar-provider.tsx:102 | `expanded` exactly when open, `collapsed` exactly when closed |
| Sidebar.OpenSources | src/context/sidebar-provider.tsx:60 | on desktop `open` is the hover state; on mobile it is the `open` prop when given and the internal state otherwise |
| Sidebar.ShortcutNeedsModifierAndLowerCase | src/context/sidebar-provider.tsx:88-92 | the shortcut needs Meta or Ctrl, and the key `B` (Shift held) does not fire it |
| Sidebar.SidebarProvider.State | src/context/sidebar-provider.tsx:102 | the provider's state is `expanded` exactly when it is open |
| Sidebar.SidebarProvider.constructor | src/context/sidebar-provider.tsx:41-57 | the internal state starts from `defaultOpen`, which defaults to false; `openMobile` and hovering start false |
| Sidebar.SidebarProvider.Rerender | src/context/sidebar-provider.tsx:42-51 | a later render takes the new viewport, `open` prop and `onOpenChange`, and keeps every state cell |
| Sidebar.SidebarProvider.SetOpenMobile | src/context/sidebar-provider.tsx:52 | `setOpenMobile` sets `openMobile` to the given value and nothing else |
| Sidebar.SidebarProvider.SetIsHovering | src/context/sidebar-provider.tsx:53 | `setIsHovering` sets the hover state to the given value and nothing else |
| Sidebar.SidebarProvider.SetOpen | src/context/sidebar-provider.tsx:62-75 | on mobile the resolved value goes to `onOpenChange` when given and to the internal state otherwise, never both; on desktop nothing happens |
| Sidebar.SidebarProvider.ToggleSidebar | src/context/sidebar-provider.tsx:78-84 | mobile negates `openMobile`; desktop changes nothing |
| Sidebar.SidebarProvider.HandleKeyDown | src/context/sidebar-provider.tsx:88-95 | the default action is prevented exactly on the shortcut, and only the shortcut toggles |
| Sidebar.UseSidebar | src/context/sidebar-provider.tsx:22-29 | outside a provider the hook fails with `useSidebar must be used within a SidebarProvider.`, and inside it returns the provider |
| Sidebar.ToggleTwiceRestores | src/context/sidebar-provider.tsx:78-84 | toggling twice restores `openMobile` on either viewport |
| Sidebar.DesktopSetOpenIsNoOp | src/context/sidebar-provider.tsx:62-75 | on desktop `setOpen` changes neither `open` nor the internal state, and notifies nobody |
| Login.SchemaErrors | src/app/login/page.tsx:22-25 | no errors exactly when the name has `length` at least 2 and the Aadhaar is 12 ASCII digits; each field's message appears exactly when that field is invalid |
| Login.DefaultValuesRejected | src/app/login/page.tsx:41-44 | the untouched form fails on both fields, name first |
| Login.NameLengthBounds | src/app/login/page.tsx:23 | two characters always suffice, an empty name never does, and for BMP text validity is "at least two characters" |
| Login.DigitGroupStripsToItself | src/app/login/page.tsx:57 | a group of digits loses nothing when white space is stripped |
| Login.StripAcrossGap | src/app/login/page.tsx:57 | stripping removes a white-space gap and keeps what lies on either side |
| Login.GroupedNumberBecomesValid | src/app/login/page.tsx:57 | a number printed as three groups of four digits, with any white space between them, becomes a valid Aadhaar value |
| Login.LoginPage.constructor | src/app/login/page.tsx:30-45 | the form starts empty, with no scan, no login in progress and no preview |
| Login.LoginPage.BeginScan | src/app/login/page.tsx:49-51 | a chosen file starts scanning and shows its preview |
| Login.LoginPage.FinishScan | src/app/login/page.tsx:52-74 | an accepted result sets the name verbatim and the number without white space; otherwise the form is unchanged and a failure toast shows; scanning ends either way |
| Login.LoginPage.HandleFileChange | src/app/login/page.tsx:47-76 | no file changes nothing; otherwise the preview shows, scanning ends, and an accepted scan leaves the scanned name, a white-space-free number and the success toast |
| Login.LoginPage.BeginSubmit | src/app/login/page.tsx:78-79 | a disabled button does nothing, invalid values are rejected with the schema's errors, and valid values start the login |
| Login.LoginPage.FinishSubmit | src/app/login/page.tsx:80-88 | login stores the name and Aadhaar with defaulted photo and location, shows the success toast and ends `isLoggingIn` |
| Login.LoginPage.Submit | src/app/login/page.tsx:78-88 | the form is submitted exactly when the button is enabled and both fields are valid; a submit logs in the user with photo and location `''` and writes that record under the session key; otherwise nothing changes; `loading` of the session is kept either way |
| Chat.FlowLanguage | src/components/chat/chat-widget.tsx:62 | the chat flow is asked in `hi` exactly when the UI language is Hindi, and in `en` otherwise |
| Chat.SendEnabledIffContent | src/components/chat/chat-widget.tsx:136 | the send button is enabled exactly when nothing is loading and the input holds a non-white-space character |
| Chat.BotMessage | src/components/chat/chat-widget.tsx:63-68 | the bot message carries the reply, or the error text when the flow failed |
| Chat.ChatWidget.constructor | src/components/chat/chat-widget.tsx:29-33 | the widget starts closed, with no messages, empty input and nothing loading |
| Chat.ChatWidget.SetIsOpen | src/components/chat/chat-widget.tsx:37-44 | opening a closed widget resets the transcript to the welcome message alone; anything else keeps it |
| Chat.ChatWidget.SetLanguage | src/components/chat/chat-widget.tsx:37-44 | a language change while open resets the transcript to the welcome message; otherwise it is kept |
| Chat.ChatWidget.SetInput | src/components/chat/chat-widget.tsx:131 | typing sets the input to the field's value and nothing else |
| Chat.ChatWidget.BeginSend | src/components/chat/chat-widget.tsx:53-62 | a blank input changes nothing and sends nothing; otherwise the raw input is appended as the user's message and sent, the input is cleared and loading starts |
| Chat.ChatWidget.FinishSend | src/components/chat/chat-widget.tsx:63-71 | exactly one bot message is appended and loading ends |
| Chat.ChatWidget.HandleSend | src/components/chat/chat-widget.tsx:53-72 | a send appends exactly the user's message and one bot message after the earlier messages, or changes nothing for blank input |
| Chat.OpenThenSend | src/components/chat/chat-widget.tsx:37-72 | opening and sending a message leaves the welcome, the message and the answer, in that order |

## Left out

- Translation.Translate: option keys are restricted to ones that a regular expression matches literally. They contain no regular-expression syntax character, and they are not made only of digits and commas: some such keys (`12`, `1,2`) make `{…}` a repetition count, and the integer-like ones (`12`) also come first in `Object.keys`; the model excludes the whole class. Option values contain no `$`, because `replace` would read it as a substitution pattern. Values are taken as already converted by `String(...)`.
- Translation.Resolvable: a key that resolves to a nested table (an object, not a string) is excluded. The hook would return the object itself, or throw when options are given.
- Translation.Step: descending into a string (`"text"[part]`, such as an index or `length`) is modelled as `undefined`. A segment that names a property inherited from `Object.prototype` (`constructor`, `toString`, `valueOf`, `hasOwnProperty`, `__proto__`) is also modelled as `undefined`, although `acc[part]` finds it; with such a key `t` would return a function, or throw when options are given. The application's keys never name such properties or index into texts.
- Translation.InterpolateSubstitutes: proved only for templates and option keys and values without braces. A value that itself contains `{{…}}` can be rewritten again by a later key, and that case is not described by `Substitute`.
- The locale JSON files are not reproduced: the catalog is a parameter, and the language is assumed to be one of its keys, as the `Language` type guarantees.
- Auth: `JSON.stringify`/`JSON.parse` are abstract. A stored value either is the serialisation of a user or fails to parse. Text that parses to something other than a user (`null`, a number) is not modelled.
- Auth.AuthProvider.Logout: the navigation to `/login` is left out.
- Login: the router navigation to `/dashboard`, the toast texts, the one-second simulated delay, `fileToDataUri` and `URL.createObjectURL` are left out. The OCR flow is a parameter that answers with two strings or fails.
- Login: the hook-form machinery beyond the schema (touched state, per-field re-validation) is left out. Pressing submit runs the schema on the current values.
- Chat: the chat flow `paramMitrChat` is a parameter that answers or fails. Scrolling, `console.error` and the dialog's rendering are left out.
- Chat.ChatWidget.HandleSend: the request and its answer are taken as one step. Sends that overlap (a second send while the first is pending, which the disabled button prevents) and state updates interleaved with a pending request are not modelled.
- Sidebar: `useIsMobile` is an input of each render (`Rerender`). The parent's reaction to `onOpenChange` is not modelled; `SetOpen` returns the value it would receive.
- React's batching and re-render scheduling are not modelled: each state update takes effect when its method runs, and effects run inside the method that triggers them.
