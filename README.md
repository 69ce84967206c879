# Chat room client: composer, reactions and message cache

A Dafny model of the logic inside a realtime group-chat client. The client keeps
the chat's messages in a small store. A push subscription replaces that list
whenever the backend sends a new snapshot. Users compose text messages, reply to
a message, attach a file, and toggle one emoji reaction per message.

Modules, one per concern:

- `JsValues` (js_values.dfy): the JavaScript values the client inspects. A plain
  object that the client mutates in place is a reference (`JsObject`). Property
  reads return `undefined` when the property is absent. Truthiness is modelled.
- `JsStrings` (js_strings.dfy): `String.prototype.trim` with ECMAScript's exact
  whitespace set, and the decimal rendering of `Date.now()`. The rendering has a
  parser beside it, which proves it injective.
- `Store` (store.dfy): the state container as class `Store.State`, holding `user`
  and `messages`.
- `Reactions` (reactions.dfy): the reaction toggle as a pure function on the
  dictionary's contents, with its algebra.
- `Snapshot` (snapshot.dfy): the mapping from pushed documents to cached messages.
- `Drafts` (drafts.dfy): the reply quote, the draft handed to `addDoc`, and the
  attachment storage path. The path has a parser and a round-trip proof.
- `ChatRoom` (chat_room.dfy): the component as class `ChatRoom.ChatRoom`. Its
  fields are the composer state `newMessage` and `replyingTo`. Its methods are
  the event handlers and the subscription callback.

Backend calls (`addDoc`, `updateDoc`, `uploadBytes`, `getDownloadURL`,
`signOut`) are outside the model. Each handler takes their outcomes as parameters
and returns the request it handed over. A call that throws ends the handler in
its `catch` block, which only logs.

Two example clients in chat_room.dfy, `ReactTwiceScenario` and `ReplyScenario`,
replay a react-twice flow and a reply flow through the handlers and the store.

Where the code and its design description differ, the model follows the code:

- The design description presents the toggle as returning a new dictionary. The
  code deletes or assigns the key in the message's own reactions object. So the
  cached message changes even when `updateDoc` then fails.
- The design description says toggling twice always restores the reactions. The code
  restores them only when the user had no reaction or already had that symbol.
  A user who held a different symbol ends with none (`ToggleTwiceRestoresIff`,
  `ToggleTwiceFromOtherSymbol`).
- The design description says the composer is cleared when a send is issued. The
  code clears it only after `addDoc` succeeds; a failed send keeps the text and
  the reply target.

## Model

| member | source | states |
|---|---|---|
| `JsStrings.TrimStart` | src/app/components/ChatRoom.js:43 | the result is the longest suffix of the input that does not start with trim-whitespace; everything dropped is whitespace |
| `JsStrings.TrimEnd` | src/app/components/ChatRoom.js:43 | the result is the longest prefix of the input that does not end with trim-whitespace; everything dropped is whitespace |
| `JsStrings.BlankIffAllWhitespace` | src/app/components/ChatRoom.js:43 | the send guard `!newMessage.trim()` holds exactly when every character is whitespace, the empty string included |
| `JsStrings.Decimal` | src/app/components/ChatRoom.js:87 | the rendered timestamp is a non-empty run of decimal digits with no leading zero, so it contains no `-` |
| `JsStrings.ParseDecimalOfDecimal` | src/app/components/ChatRoom.js:87 | reading the rendered timestamp back as a decimal gives the timestamp |
| `JsStrings.DecimalInjective` | src/app/components/ChatRoom.js:87 | distinct timestamps render to distinct strings |
| `Reactions.Toggle` | src/app/components/ChatRoom.js:119-123 | the acting user's entry is absent afterwards if it equalled the symbol, and equals the symbol otherwise; every other user's entry is present and equal exactly as before |
| `Reactions.ToggleOnlyTouchesActor` | src/app/components/ChatRoom.js:119-123 | removing the acting user's key from the dictionary before and after a toggle gives the same dictionary |
| `Reactions.ToggleCommutes` | src/app/components/ChatRoom.js:119-123 | toggles by two different users give the same dictionary in either order, whatever their symbols |
| `Reactions.ToggleTwiceRestoresIff` | src/app/components/ChatRoom.js:119-123 | two toggles with the same user and symbol restore the dictionary if and only if the user had no entry or already had that symbol |
| `Reactions.ToggleTwiceFromOtherSymbol` | src/app/components/ChatRoom.js:119-123 | when the user held a different symbol, two toggles leave the dictionary without the user's entry |
| `Reactions.ToggleOnEmpty` | src/app/components/ChatRoom.js:118-123 | toggling the fresh `{}` used for a message without reactions always yields exactly `{uid: symbol}` |
| `Store.State.constructor` | store/store.js:4-10 | the initial state has no user and an empty message list |
| `Store.State.SetUser` | store/store.js:7 | `user` becomes the argument and `messages` is unchanged |
| `Store.State.SetMessages` | store/store.js:11 | `messages` becomes exactly the argument and `user` is unchanged |
| `Store.State.AddMessage` | store/store.js:12-13 | the list grows by one, the new message is last, the earlier messages keep their order, and `user` is unchanged |
| `Snapshot.ViewOfSnapshot` | src/app/components/ChatRoom.js:31-34 | the view has the documents' length and order; message i has the keys of document i's data plus `id`, carries every data field unchanged (so a data field `id` wins), and otherwise has the document id as `id` |
| `Drafts.TextDraftShape` | src/app/components/ChatRoom.js:46-62 | a text draft carries the untrimmed text, the server-timestamp sentinel, the author's uid, empty reactions and a null attachment; its quote is null exactly when no reply is pending, and otherwise exactly the target's `id/text/displayName/photoURL`; it is publishable |
| `Drafts.AttachmentDraftShape` | src/app/components/ChatRoom.js:91-107 | an attachment draft has empty text, the download URL as attachment, empty reactions and the same quote rule; it is publishable |
| `Drafts.EmptyWithoutAttachmentNotPublishable` | src/app/components/ChatRoom.js:43-62 | a draft with empty text and no attachment is not publishable, which is why the text path is guarded |
| `Drafts.ReplySnapshotIgnoresReactions` | src/app/components/ChatRoom.js:53-58 | the quote does not depend on the target's reactions, so later toggles on the target cannot change it |
| `Drafts.ParseAttachmentPathRoundTrip` | src/app/components/ChatRoom.js:87 | splitting `attachments/<name>-<timestamp>` at its last `-` recovers both the file name and the timestamp |
| `Drafts.AttachmentPathInjective` | src/app/components/ChatRoom.js:87 | two uploads share a storage path if and only if they have the same file name and the same timestamp |
| `ChatRoom.ChatRoom.constructor` | src/app/components/ChatRoom.js:22-23 | the composer starts with empty text and no reply target |
| `ChatRoom.ChatRoom.OnSnapshot` | src/app/components/ChatRoom.js:30-35 | every push replaces the store's messages wholesale with the mapped documents and leaves the user alone |
| `ChatRoom.ChatRoom.HandleInput` | src/app/components/ChatRoom.js:363 | the composer text becomes the field's value; the reply target is unchanged |
| `ChatRoom.ChatRoom.HandleSendMessage` | src/app/components/ChatRoom.js:41-68 | blank text sends nothing and changes nothing; otherwise the draft built from the text and the reply target held at send time is sent, and it is publishable; text and reply target are both cleared if `addDoc` succeeds and both kept if it throws |
| `ChatRoom.ChatRoom.HandleReply` | src/app/components/ChatRoom.js:71-73 | the reply target becomes the message; the text is unchanged |
| `ChatRoom.ChatRoom.CancelReply` | src/app/components/ChatRoom.js:332 | the reply target is dropped; the text is unchanged |
| `ChatRoom.ChatRoom.HandleFileChange` | src/app/components/ChatRoom.js:81-112 | no file means no upload and no change; otherwise the upload goes to `attachments/<name>-<now>`; a draft is sent exactly when the upload and the URL lookup succeed, with empty text and the URL as attachment; only a successful `addDoc` clears the reply target; the text is never touched |
| `ChatRoom.ChatRoom.HandleReaction` | src/app/components/ChatRoom.js:115-128 | with a usable message id, an existing reactions object is toggled in place, and that same object is what `updateDoc` receives, whatever the write's outcome; with a falsy reactions field (absent, null or `""`) a fresh object is toggled, the cache is left alone and the write carries exactly `{uid: symbol}`; an unusable id, or a non-empty string reactions field, throws before anything is written |
| `ChatRoom.ChatRoom.HandleSignOut` | src/app/components/ChatRoom.js:131-138 | a successful sign-out clears the store's user and a failed one keeps it; messages are unchanged |

## Left out

- Backend I/O (`onSnapshot`, `addDoc`, `updateDoc`, `uploadBytes`, `getDownloadURL`, `signOut`, `serverTimestamp`): the handlers take each call's outcome as a parameter and return the request they issued. The backend's own state is not modelled.
- The query's `orderBy("createdAt", "asc")` (src/app/components/ChatRoom.js:29): ordering is done by the backend. The model keeps whatever order the documents arrive in.
- Subscription teardown on unmount (src/app/components/ChatRoom.js:37): lifecycle wiring of the UI framework.
- Asynchrony and overlapping in-flight writes: handlers run one at a time to completion. The last-write-wins race on a reactions dictionary is not modelled.
- `handleAttachClick` (src/app/components/ChatRoom.js:76-78): it only clicks the hidden file input.
- All rendering (src/app/components/ChatRoom.js:151-373), `getFormattedDate` (clock and locale) and `capitalize` (Unicode case mapping).
- src/app/page.js, src/app/components/GoogleSignIn.js and tailwind.config.js: authentication wiring, animation and styling.
- The uploaded file's contents: only the file name enters the model.
- Numbers and booleans as document field values: the client never writes them, and `Value` has no case for them. Server timestamps arrive as objects.
- Property lookup through the prototype chain, which matters only for user ids such as `constructor`.
- `auth.currentUser` is taken to be the signed-in user for the component's lifetime. The component is shown only then.
- ChatRoom.ChatRoom.HandleReaction: every message id containing `/` is treated as rejected by `doc()`. The SDK accepts ids with an even number of `/` between non-empty segments and then addresses a document in a sub-collection. Ids assigned by the backend never contain `/`.
- ChatRoom.ChatRoom.HandleFileChange: `Date.now()` is a natural number. A clock before 1970 (a leading `-`) and values of 1e21 or more (exponent notation) are not modelled.
- `addDoc`'s client-side validation (it rejects a field holding `undefined`, as a quote of a target without `displayName` or `photoURL` would) is not modelled separately: the free `addSucceeds` outcome covers it.
