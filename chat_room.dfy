/**
 * The chat room component: the composer state (`newMessage`, `replyingTo`),
 * its event handlers, and the subscription handler that refreshes the
 * store's message list.
 *
 * Each call to the backend is represented by what the handler hands to it
 * (the returned request) and by a parameter that says how it turned out;
 * a call that throws ends the handler in its `catch`, which only logs.
 */
module ChatRoom {
  import opened JsValues
  import opened JsStrings
  import opened Reactions
  import opened Snapshot
  import opened Drafts
  import Store

  /** The `updateDoc` request of a reaction: the message's whole reactions dictionary is replaced. */
  datatype ReactionUpdate = ReactionUpdate(docId: string, reactions: map<string, Value>)

  /**
   * Whether `doc(firestore, "messages", id)` yields a document reference:
   * the id is a non-empty string that names a document directly in the collection.
   */
  predicate IsDocId(id: Value)
  {
    id.Str? && id.s != "" && '/' !in id.s
  }

  /** The reactions object a message already carries, which `msg.reactions || {}` reuses. */
  function CachedReactions(msg: Record): set<JsObject>
  {
    match Get(msg, "reactions")
    case Obj(o) => {o}
    case _ => {}
  }

  class ChatRoom {
    /** The shared store (`useStore()`). */
    const store: Store.State
    /** `auth.currentUser`: the room is only shown to a signed-in user. */
    const me: Store.User
    var newMessage: string
    var replyingTo: Option<Record>

    /** `useState("")` and `useState(null)`. */
    constructor (store: Store.State, me: Store.User)
      ensures this.store == store && this.me == me
      ensures newMessage == "" && replyingTo == None
    {
      this.store := store;
      this.me := me;
      newMessage := "";
      replyingTo := None;
    }

    /** The `onSnapshot` callback: the cached list becomes the mapped documents, wholesale. */
    method OnSnapshot(docs: seq<DocSnapshot>)
      modifies store
      ensures store.messages == ViewOfSnapshot(docs)
      ensures store.user == old(store.user)
    {
      store.SetMessages(ViewOfSnapshot(docs));
    }

    /** The input's `onChange`: the composer text follows the field. */
    method HandleInput(text: string)
      modifies this
      ensures newMessage == text && replyingTo == old(replyingTo)
    {
      newMessage := text;
    }

    /**
     * `handleSendMessage`: whitespace-only text sends nothing; otherwise the
     * draft is handed to `addDoc`, and only when that succeeds are the text
     * and the reply target cleared.
     */
    method HandleSendMessage(addSucceeds: bool) returns (sent: Option<Draft>)
      modifies this
      ensures IsBlank(old(newMessage)) ==> sent == None
      ensures !IsBlank(old(newMessage)) ==> sent == Some(NewDraft(old(newMessage), me, old(replyingTo), None))
      ensures sent.Some? ==> Publishable(sent.value) && sent.value.text == old(newMessage)
      ensures sent.Some? && addSucceeds ==> newMessage == "" && replyingTo == None
      ensures sent.None? || !addSucceeds ==> newMessage == old(newMessage) && replyingTo == old(replyingTo)
    {
      if IsBlank(newMessage) {
        return None;
      }
      var draft := NewDraft(newMessage, me, replyingTo, None);
      sent := Some(draft);
      if addSucceeds {
        newMessage := "";
        replyingTo := None;
      }
    }

    /** `handleReply`: the message becomes the reply target, replacing any earlier one. */
    method HandleReply(message: Record)
      modifies this
      ensures replyingTo == Some(message) && newMessage == old(newMessage)
    {
      replyingTo := Some(message);
    }

    /** The reply preview's close button: the reply target is dropped, the text stays. */
    method CancelReply()
      modifies this
      ensures replyingTo == None && newMessage == old(newMessage)
    {
      replyingTo := None;
    }

    /**
     * `handleFileChange`: with a file selected, uploads it under
     * `attachments/<name>-<now>`, asks for its download URL, and hands an
     * attachment draft to `addDoc`; only a successful `addDoc` clears the
     * reply target, and the composer text is never touched. A failure at any
     * step stops the handler, so a failed `addDoc` leaves the upload behind.
     */
    method HandleFileChange(file: Option<string>, now: nat, uploadSucceeds: bool, downloadUrl: Option<string>, addSucceeds: bool)
      returns (uploadedTo: Option<string>, sent: Option<Draft>)
      modifies this
      ensures file.None? ==> uploadedTo == None && sent == None
      ensures file.Some? ==> uploadedTo == Some(AttachmentPath(file.value, now))
      ensures sent.Some? <==> file.Some? && uploadSucceeds && downloadUrl.Some?
      ensures sent.Some? ==> sent.value == NewDraft("", me, old(replyingTo), downloadUrl)
      ensures sent.Some? ==> sent.value.text == "" && sent.value.attachmentUrl.Some? && Publishable(sent.value)
      ensures newMessage == old(newMessage)
      ensures replyingTo == if sent.Some? && addSucceeds then None else old(replyingTo)
    {
      uploadedTo, sent := None, None;
      if file.None? {
        return;
      }
      var path := AttachmentPath(file.value, now);
      uploadedTo := Some(path);
      if !uploadSucceeds || downloadUrl.None? {
        return;
      }
      var draft := NewDraft("", me, replyingTo, downloadUrl);
      sent := Some(draft);
      if addSucceeds {
        replyingTo := None;
      }
    }

    /**
     * `handleReaction`: toggles the signed-in user's reaction in the message's
     * reactions object IN PLACE, then hands the whole object to `updateDoc`.
     * The object is the one the cached message holds, so the cache shows the
     * toggle whatever `updateDoc` does; a falsy reactions field (absent, null
     * or "") gets a fresh object and the cache is left alone.
     */
    method HandleReaction(msg: Record, reactionType: string) returns (update: Option<ReactionUpdate>)
      modifies CachedReactions(msg)
      ensures !IsDocId(Get(msg, "id")) ==> update == None
      ensures forall o :: o in CachedReactions(msg) ==>
        o.props == if IsDocId(Get(msg, "id")) then Toggle(old(o.props), me.uid, Str(reactionType)) else old(o.props)
      ensures IsDocId(Get(msg, "id")) && CachedReactions(msg) != {} ==>
        forall o :: o in CachedReactions(msg) ==> update == Some(ReactionUpdate(Get(msg, "id").s, o.props))
      ensures IsDocId(Get(msg, "id")) && !Truthy(Get(msg, "reactions")) ==>
        update == Some(ReactionUpdate(Get(msg, "id").s, map[me.uid := Str(reactionType)]))
      ensures Get(msg, "reactions").Str? && Truthy(Get(msg, "reactions")) ==> update == None
    {
      var id := Get(msg, "id");
      if !IsDocId(id) {
        return None;
      }
      var reactions := Get(msg, "reactions");
      var current: JsObject;
      if reactions.Obj? {
        current := reactions.o;
      } else if !Truthy(reactions) {
        current := new JsObject(map[]);
      } else {
        // A non-empty string: assigning a property of a primitive throws in strict mode.
        return None;
      }
      current.props := Toggle(current.props, me.uid, Str(reactionType));
      update := Some(ReactionUpdate(id.s, current.props));
    }

    /** `handleSignOut`: after a successful sign-out the store forgets the user. */
    method HandleSignOut(signOutSucceeds: bool)
      modifies store
      ensures store.user == if signOutSucceeds then None else old(store.user)
      ensures store.messages == old(store.messages)
    {
      if signOutSucceeds {
        store.SetUser(None);
      }
    }
  }

  /** A client of the handlers: B reacts twice to A's message through the cached copy. */
  method ReactTwiceScenario()
  {
    var store := new Store.State();
    var bag := new JsObject(map[]);
    var doc := DocSnapshot("m1", map["text" := Str("hi"), "reactions" := Obj(bag)]);
    var b := new ChatRoom(store, Store.User("B", Str("Bea"), Null));
    b.OnSnapshot([doc]);
    var msg := store.messages[0];
    assert Get(msg, "id") == Str("m1") && Get(msg, "reactions") == Obj(bag);

    var u := b.HandleReaction(msg, "+1");
    assert bag.props == map["B" := Str("+1")];
    u := b.HandleReaction(msg, "+1");
    assert bag.props == map[];
    assert store.messages == [msg];
  }

  /** A client of the handlers: C replies to A's cached message. */
  method ReplyScenario()
  {
    var store := new Store.State();
    var msg := map["id" := Str("m1"), "text" := Str("hi"), "displayName" := Str("Al"), "photoURL" := Null];
    var c := new ChatRoom(store, Store.User("C", Str("Cy"), Null));
    c.HandleReply(msg);
    c.HandleInput("hello back");
    assert TrimStart("hello back") == "hello back";
    assert TrimEnd("hello back") == "hello back";
    var sent := c.HandleSendMessage(true);
    assert sent.Some? && sent.value.replyTo == Some(ReplyRef(Str("m1"), Str("hi"), Str("Al"), Null));
    assert sent.value.reactions == map[] && c.replyingTo == None && c.newMessage == "";
  }
}
