/** The records the app keeps: contacts, chat messages and the user profile, and the
    list operations the services and the reducers share (`findIndex`, and the
    `filter(m => m.id !== id)` that erases a message). */
module Entities {
  import opened Wrappers

  /** A reading of `new Date()`: milliseconds on a logical clock. */
  type Time = nat

  datatype ContactStatus = Offline | Online | Connecting

  /** The contact data the add-contact form hands over: `{ id, name }`. */
  datatype NewContact = NewContact(id: string, name: string)

  /** A stored contact: the form data plus what the app stamps on it. */
  datatype Contact = Contact(id: string, name: string, status: ContactStatus, addedAt: Time, lastSeen: Option<Time>)

  datatype MessageKind = Text | File | Audio

  /** Which side created the message: `sent: true` or `received: true`. */
  datatype Origin = Sent | Received

  /** A chat message. `body` holds the text `content`, or the base64 `data` of a file. */
  datatype Message = Message(
    id: string,
    kind: MessageKind,
    body: string,
    fileName: Option<string>,
    fileType: Option<string>,
    origin: Origin,
    timestamp: Time,
    read: bool,
    readAt: Option<Time>)

  /** A user-profile object: field name to value, as the JavaScript object is. */
  datatype ProfileValue = Str(s: string) | Stamp(t: Time)
  type Profile = map<string, ProfileValue>

  /** `xs.findIndex(p)`: the first index whose element satisfies `p`, if any. */
  function FindFirst<T>(xs: seq<T>, p: T -> bool): (r: Option<nat>)
    ensures r.Some? ==> r.value < |xs| && p(xs[r.value])
    ensures r.Some? ==> forall k :: 0 <= k < r.value ==> !p(xs[k])
    ensures r.None? ==> forall k :: 0 <= k < |xs| ==> !p(xs[k])
  {
    if |xs| == 0 then None
    else if p(xs[0]) then Some(0)
    else match FindFirst(xs[1..], p)
      case None => None
      case Some(i) => Some(i + 1)
  }

  function ContactIds(cs: seq<Contact>): (ids: seq<string>)
    ensures |ids| == |cs| && forall k :: 0 <= k < |cs| ==> ids[k] == cs[k].id
  {
    seq(|cs|, k requires 0 <= k < |cs| => cs[k].id)
  }

  /** No two contacts share an id. */
  predicate UniqueIds(cs: seq<Contact>) {
    forall i, j :: 0 <= i < j < |cs| ==> cs[i].id != cs[j].id
  }

  predicate HasContact(cs: seq<Contact>, id: string) {
    exists k :: 0 <= k < |cs| && cs[k].id == id
  }

  predicate HasMessage(log: seq<Message>, id: string) {
    exists k :: 0 <= k < |log| && log[k].id == id
  }

  /** `log.filter(m => m.id !== id)`. */
  function RemoveById(log: seq<Message>, id: string): seq<Message>
  {
    if |log| == 0 then []
    else if log[0].id == id then RemoveById(log[1..], id)
    else [log[0]] + RemoveById(log[1..], id)
  }

  /** The filter keeps exactly the messages with another id. */
  lemma {:induction false} RemoveByIdMembers(log: seq<Message>, id: string)
    ensures forall m :: m in RemoveById(log, id) <==> m in log && m.id != id
  {
    if |log| > 0 {
      RemoveByIdMembers(log[1..], id);
      assert log == [log[0]] + log[1..];
    }
  }

  /** After the filter no message with that id is left. */
  lemma RemoveByIdErases(log: seq<Message>, id: string)
    ensures !HasMessage(RemoveById(log, id), id)
  {
    RemoveByIdMembers(log, id);
    var r := RemoveById(log, id);
    forall k | 0 <= k < |r| ensures r[k].id != id {
      assert r[k] in r;
    }
  }

  /** The filter distributes over concatenation, so the kept messages stay in order. */
  lemma {:induction false} RemoveByIdAppend(a: seq<Message>, b: seq<Message>, id: string)
    ensures RemoveById(a + b, id) == RemoveById(a, id) + RemoveById(b, id)
  {
    if |a| > 0 {
      RemoveByIdAppend(a[1..], b, id);
      assert (a + b)[1..] == a[1..] + b;
    } else {
      assert a + b == b;
    }
  }

  /** A log without that id is left as it is. */
  lemma {:induction false} RemoveByIdAbsent(log: seq<Message>, id: string)
    requires !HasMessage(log, id)
    ensures RemoveById(log, id) == log
  {
    if |log| > 0 {
      forall k | 0 <= k < |log| - 1 ensures log[1..][k].id != id {
        assert log[1..][k] == log[k + 1];
      }
      RemoveByIdAbsent(log[1..], id);
      assert log == [log[0]] + log[1..];
    }
  }

  /** Removing the same id twice removes nothing more. */
  lemma RemoveByIdIdempotent(log: seq<Message>, id: string)
    ensures RemoveById(RemoveById(log, id), id) == RemoveById(log, id)
  {
    RemoveByIdErases(log, id);
    RemoveByIdAbsent(RemoveById(log, id), id);
  }

  /** Removal never lengthens a log. */
  lemma {:induction false} RemoveByIdShorter(log: seq<Message>, id: string)
    ensures |RemoveById(log, id)| <= |log|
    ensures HasMessage(log, id) ==> |RemoveById(log, id)| < |log|
  {
    if |log| > 0 {
      RemoveByIdShorter(log[1..], id);
      if HasMessage(log, id) && log[0].id != id {
        var k :| 0 <= k < |log| && log[k].id == id;
        assert log[1..][k - 1].id == id;
      }
    }
  }
}
