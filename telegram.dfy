/**
 * The chat, seen from the bot as an append-only log of the messages it has
 * sent, each with the id the chat service assigned, plus the set of ids
 * the bot has since deleted.
 */
module Telegram {

  /** An inline button: its text and the callback data it sends back. */
  datatype Button = Button(text: string, callbackData: string)

  /** A photo with a caption, or a text message with a row of inline buttons (possibly none). */
  datatype Content = Photo(caption: string) | Text(text: string, keyboard: seq<Button>)

  datatype Message = Message(id: int, content: Content)

  function IdsOf(ms: seq<Message>): (ids: seq<int>)
    ensures |ids| == |ms|
  {
    if ms == [] then [] else [ms[0].id] + IdsOf(ms[1..])
  }

  function ContentsOf(ms: seq<Message>): (cs: seq<Content>)
    ensures |cs| == |ms|
  {
    if ms == [] then [] else [ms[0].content] + ContentsOf(ms[1..])
  }

  lemma {:induction false} IdsOfAppend(a: seq<Message>, b: seq<Message>)
    ensures IdsOf(a + b) == IdsOf(a) + IdsOf(b)
  {
    if a != [] {
      assert (a + b)[1..] == a[1..] + b;
      IdsOfAppend(a[1..], b);
    } else {
      assert a + b == b;
    }
  }

  lemma {:induction false} ContentsOfAppend(a: seq<Message>, b: seq<Message>)
    ensures ContentsOf(a + b) == ContentsOf(a) + ContentsOf(b)
  {
    if a != [] {
      assert (a + b)[1..] == a[1..] + b;
      ContentsOfAppend(a[1..], b);
    } else {
      assert a + b == b;
    }
  }

  /** `after` is `before` followed by messages whose contents are `sent`, in that order. */
  ghost predicate Appended(before: seq<Message>, after: seq<Message>, sent: seq<Content>) {
    |after| == |before| + |sent| && after[..|before|] == before && ContentsOf(after[|before|..]) == sent
  }

  /** The ids of the messages `after` has beyond `before`, in send order. */
  ghost function NewIds(before: seq<Message>, after: seq<Message>): seq<int>
    requires |before| <= |after|
  {
    IdsOf(after[|before|..])
  }

  /** Two consecutive batches of sends make one batch, and their new ids line up. */
  lemma AppendedTrans(a: seq<Message>, b: seq<Message>, c: seq<Message>, s1: seq<Content>, s2: seq<Content>)
    requires Appended(a, b, s1) && Appended(b, c, s2)
    ensures Appended(a, c, s1 + s2)
    ensures NewIds(a, c) == NewIds(a, b) + NewIds(b, c)
  {
    assert c[|a|..] == b[|a|..] + c[|b|..];
    assert c[..|a|] == b[..|a|];
    ContentsOfAppend(b[|a|..], c[|b|..]);
    IdsOfAppend(b[|a|..], c[|b|..]);
  }

  /** The last message of a non-empty batch is the last one in the log. */
  lemma AppendedLast(before: seq<Message>, after: seq<Message>, sent: seq<Content>)
    requires Appended(before, after, sent) && sent != []
    ensures after[|after| - 1].content == sent[|sent| - 1]
  {
    ContentsOfAt(after[|before|..], |sent| - 1);
  }

  lemma {:induction false} ContentsOfAt(ms: seq<Message>, k: nat)
    requires k < |ms|
    ensures ContentsOf(ms)[k] == ms[k].content
  {
    if k > 0 {
      ContentsOfAt(ms[1..], k - 1);
    }
  }

  /** A single send is a batch of one. */
  lemma AppendedOne(a: seq<Message>, m: Message)
    ensures Appended(a, a + [m], [m.content])
    ensures NewIds(a, a + [m]) == [m.id]
  {
    assert (a + [m])[|a|..] == [m];
  }

  class Chat {
    var log: seq<Message>
    var deleted: set<int>
    var nextId: int

    /** `nextId` is above every id handed out so far, so each new id is fresh. */
    ghost predicate Valid()
      reads this
    {
      forall k :: 0 <= k < |log| ==> log[k].id < nextId
    }

    /** The ids of every message sent so far. */
    function SentIds(): set<int>
      reads this
    {
      set m | m in log :: m.id
    }

    constructor (firstId: int)
      ensures Valid()
      ensures log == [] && deleted == {} && nextId == firstId
    {
      log, deleted, nextId := [], {}, firstId;
    }

    method Send(content: Content) returns (id: int)
      requires Valid()
      modifies this`log, this`nextId
      ensures Valid()
      ensures log == old(log) + [Message(id, content)]
      ensures forall m :: m in old(log) ==> m.id < id
    {
      id := nextId;
      log := log + [Message(id, content)];
      nextId := nextId + 1;
    }

    /** `send_photo`: a photo with a caption. */
    method SendPhoto(caption: string) returns (id: int)
      requires Valid()
      modifies this`log, this`nextId
      ensures Valid()
      ensures log == old(log) + [Message(id, Photo(caption))]
      ensures forall m :: m in old(log) ==> m.id < id
    {
      id := Send(Photo(caption));
    }

    /** `send_message`: a text with a (possibly empty) row of inline buttons. */
    method SendMessage(text: string, keyboard: seq<Button>) returns (id: int)
      requires Valid()
      modifies this`log, this`nextId
      ensures Valid()
      ensures log == old(log) + [Message(id, Text(text, keyboard))]
      ensures forall m :: m in old(log) ==> m.id < id
    {
      id := Send(Text(text, keyboard));
    }

    /**
     * `delete_message`: succeeds on a message that was sent and is not yet
     * deleted; fails, changing nothing, on any other id.
     */
    method DeleteMessage(id: int) returns (ok: bool)
      modifies this`deleted
      ensures ok <==> id in SentIds() && id !in old(deleted)
      ensures deleted == old(deleted) + {id} * SentIds()
    {
      ok := id in SentIds() && id !in deleted;
      if ok {
        deleted := deleted + {id};
      }
    }
  }
}
