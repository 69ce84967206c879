/**
 * The message drafts the composer hands to `addDoc`, the reply quote they
 * carry, and the storage path under which an attachment is uploaded.
 */
module Drafts {
  import opened JsValues
  import opened JsStrings
  import opened Store

  /** The quote of the message being replied to: four of its fields, copied. */
  datatype ReplyRef = ReplyRef(id: Value, text: Value, displayName: Value, photoURL: Value)

  /** The value written to `createdAt`: always the server-timestamp sentinel. */
  datatype FieldValue = ServerTimestamp

  /** The document a send hands to `addDoc`. */
  datatype Draft = Draft(
    text: string,
    createdAt: FieldValue,
    uid: string,
    displayName: Value,
    photoURL: Value,
    replyTo: Option<ReplyRef>,
    reactions: map<string, Value>,
    attachmentUrl: Option<string>)

  /** `{id, text, displayName, photoURL}` read off the reply target at the moment of sending. */
  function ReplySnapshot(target: Record): ReplyRef
  {
    ReplyRef(Get(target, "id"), Get(target, "text"), Get(target, "displayName"), Get(target, "photoURL"))
  }

  /** `replyingTo ? {...} : null` */
  function ReplyField(replyingTo: Option<Record>): Option<ReplyRef>
  {
    match replyingTo
    case None => None
    case Some(target) => Some(ReplySnapshot(target))
  }

  /**
   * The draft both send paths build: author fields from the signed-in user,
   * the reply quote if a reply is pending, no reactions yet.
   */
  function NewDraft(text: string, author: User, replyingTo: Option<Record>, attachmentUrl: Option<string>): Draft
  {
    Draft(text, ServerTimestamp, author.uid, author.displayName, author.photoURL,
          ReplyField(replyingTo), map[], attachmentUrl)
  }

  /** A message is worth showing when it has visible text or an attachment. */
  predicate Publishable(d: Draft)
  {
    !IsBlank(d.text) || d.attachmentUrl.Some?
  }

  /**
   * What a text send writes: the untrimmed text, no reactions, no attachment,
   * and either no quote or exactly the four fields of the reply target.
   */
  lemma TextDraftShape(text: string, author: User, replyingTo: Option<Record>)
    requires !IsBlank(text)
    ensures var d := NewDraft(text, author, replyingTo, None);
      && d.text == text && d.reactions == map[] && d.attachmentUrl == None
      && d.uid == author.uid && d.createdAt == ServerTimestamp
      && (replyingTo == None <==> d.replyTo == None)
      && (replyingTo.Some? ==> d.replyTo == Some(ReplyRef(Get(replyingTo.value, "id"), Get(replyingTo.value, "text"),
                                                          Get(replyingTo.value, "displayName"), Get(replyingTo.value, "photoURL"))))
      && Publishable(d)
  {
  }

  /** What an attachment send writes: empty text, the download URL, no reactions; it is publishable. */
  lemma AttachmentDraftShape(url: string, author: User, replyingTo: Option<Record>)
    ensures var d := NewDraft("", author, replyingTo, Some(url));
      && d.text == "" && d.attachmentUrl == Some(url) && d.reactions == map[]
      && d.replyTo == ReplyField(replyingTo)
      && Publishable(d)
  {
  }

  /** An empty-text draft without an attachment is never publishable. */
  lemma EmptyWithoutAttachmentNotPublishable(author: User, replyingTo: Option<Record>)
    ensures !Publishable(NewDraft("", author, replyingTo, None))
  {
  }

  /** The quote does not depend on the target's reactions, so toggling them later cannot change it. */
  lemma ReplySnapshotIgnoresReactions(target: Record, reactions: Value)
    ensures ReplySnapshot(target["reactions" := reactions]) == ReplySnapshot(target)
  {
  }

  /** The prefix every attachment path starts with. */
  const AttachmentsDir: string := "attachments/"

  /** `attachments/${file.name}-${Date.now()}` */
  function AttachmentPath(name: string, now: nat): string
  {
    AttachmentsDir + name + "-" + Decimal(now)
  }

  /** The index of the last occurrence of `c` in `s`. */
  function LastIndexOf(s: string, c: char): (r: Option<nat>)
    ensures r.Some? ==> r.value < |s| && s[r.value] == c && forall k :: r.value < k < |s| ==> s[k] != c
    ensures r.None? ==> forall k :: 0 <= k < |s| ==> s[k] != c
  {
    if s == [] then None
    else if s[|s| - 1] == c then Some(|s| - 1)
    else LastIndexOf(s[..|s| - 1], c)
  }

  /**
   * Splits an attachment path back into file name and timestamp: the
   * timestamp is what follows the last '-', the name what precedes it.
   */
  function ParseAttachmentPath(path: string): Option<(string, nat)>
  {
    if |path| < |AttachmentsDir| || path[..|AttachmentsDir|] != AttachmentsDir then None
    else
      var rest := path[|AttachmentsDir|..];
      match LastIndexOf(rest, '-')
      case None => None
      case Some(j) =>
        match ParseDecimal(rest[j + 1..])
        case None => None
        case Some(t) => Some((rest[..j], t))
  }

  /** The path determines the file name and the timestamp it was built from. */
  lemma {:induction false} ParseAttachmentPathRoundTrip(name: string, now: nat)
    ensures ParseAttachmentPath(AttachmentPath(name, now)) == Some((name, now))
  {
    var digits := Decimal(now);
    var path := AttachmentPath(name, now);
    var rest := name + "-" + digits;
    assert path == AttachmentsDir + rest;
    assert path[..|AttachmentsDir|] == AttachmentsDir;
    assert path[|AttachmentsDir|..] == rest;
    var j := LastIndexOf(rest, '-');
    assert rest[|name|] == '-';
    assert j.Some? && j.value == |name| by {
      forall k | |name| < k < |rest| ensures rest[k] != '-' {
        assert rest[k] == digits[k - |name| - 1];
      }
    }
    assert rest[|name| + 1..] == digits;
    assert rest[..|name|] == name;
    ParseDecimalOfDecimal(now);
  }

  /** Two uploads get the same path only for the same file name at the same millisecond. */
  lemma AttachmentPathInjective(name1: string, now1: nat, name2: string, now2: nat)
    ensures AttachmentPath(name1, now1) == AttachmentPath(name2, now2) <==> name1 == name2 && now1 == now2
  {
    ParseAttachmentPathRoundTrip(name1, now1);
    ParseAttachmentPathRoundTrip(name2, now2);
  }
}
