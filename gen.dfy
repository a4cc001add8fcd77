/** The request builder: sender, reply-to address, subject, dispatch time,
    message body and the messengers, folded by `Compile` into one document. */
module Gens {
  import opened Php
  import opened Receipients
  import opened Messengers
  import opened Messages

  /** `from` and `reply_to` of the document: the `email` key is always
      present; `name` is None when the key is left out. */
  datatype Party = Party(email: Option<string>, name: Option<string>)

  /** The `message` entry: the HTML body and its plain alternative. */
  datatype Body = Body(html: Option<string>, text: Option<string>)

  /** The compiled request. `subject` is always present (its value may be
      null); `dispatchTime` and `replyTo` are None when the key is left out. */
  datatype Document = Document(
    subject: Option<string>,
    from: Party,
    message: Body,
    dispatchTime: Option<string>,
    replyTo: Option<Party>,
    messengers: seq<CompiledMessenger>)

  /** The exceptions `compile` throws. */
  datatype CompileError = EmptyBody | NoSender

  function ErrorMessage(e: CompileError): string
  {
    match e
    case EmptyBody => "Message body cannot be empty"
    case NoSender => "Message needs a sender"
  }

  /** The exceptions `dispatch` throws before anything is sent. */
  datatype DispatchError = NoAuthorization | Invalid(reason: CompileError)

  function DispatchMessage(e: DispatchError): string
  {
    match e
    case NoAuthorization => "Authorization info not found"
    case Invalid(reason) => ErrorMessage(reason)
  }

  /** The builder's fields as `compile` reads them. */
  datatype Settings = Settings(
    subject: Option<string>,
    fromEmail: Option<string>,
    fromName: Option<string>,
    replyToEmail: Option<string>,
    replyToName: Option<string>,
    dispatchTime: Option<string>,
    html: Option<string>,
    text: Option<string>)

  /** The outcome of `compile` for these fields and these compiled messengers:
      the body is checked first and the sender second; on success each
      optional key is present only when its field is set. */
  function Assemble(s: Settings, views: seq<CompiledMessenger>): (r: Result<Document, CompileError>)
    ensures !Truthy(s.html) ==> r == Failure(EmptyBody)
    ensures Truthy(s.html) && !Truthy(s.fromEmail) ==> r == Failure(NoSender)
    ensures r.Success? <==> Truthy(s.html) && Truthy(s.fromEmail)
    ensures r.Success? ==> r.value.subject == s.subject
                           && r.value.from.email == s.fromEmail
                           && r.value.message == Body(s.html, s.text)
                           && r.value.messengers == views
    ensures r.Success? ==> (r.value.from.name.Some? <==> Truthy(s.fromName))
                           && (r.value.from.name.Some? ==> r.value.from.name == s.fromName)
    ensures r.Success? ==> (r.value.dispatchTime.Some? <==> Truthy(s.dispatchTime))
                           && (r.value.dispatchTime.Some? ==> r.value.dispatchTime == s.dispatchTime)
    ensures r.Success? ==> (r.value.replyTo.Some? <==> Truthy(s.replyToEmail))
    ensures r.Success? && r.value.replyTo.Some?
            ==> r.value.replyTo.value.email == s.replyToEmail
                && (r.value.replyTo.value.name.Some? <==> Truthy(s.replyToName))
                && (r.value.replyTo.value.name.Some? ==> r.value.replyTo.value.name == s.replyToName)
  {
    if !Truthy(s.html) then Failure(EmptyBody)
    else if !Truthy(s.fromEmail) then Failure(NoSender)
    else
      Success(Document(
        s.subject,
        Party(s.fromEmail, if Truthy(s.fromName) then s.fromName else None),
        Body(s.html, s.text),
        if Truthy(s.dispatchTime) then s.dispatchTime else None,
        if Truthy(s.replyToEmail)
        then Some(Party(s.replyToEmail, if Truthy(s.replyToName) then s.replyToName else None))
        else None,
        views))
  }

  /** The messengers of a name-keyed table, in the order of `ns`. */
  function InOrder(ns: seq<string>, table: map<string, Messenger>): (ms: seq<Messenger>)
    requires forall n :: n in ns ==> n in table
    ensures |ms| == |ns|
    ensures forall k :: 0 <= k < |ns| ==> ms[k] == table[ns[k]]
  {
    seq(|ns|, k requires 0 <= k < |ns| => table[ns[k]])
  }

  /** What compiling each messenger of `ms` yields, in order. */
  function Views(ms: seq<Messenger>): (vs: seq<CompiledMessenger>)
    reads (set m | m in ms)`subject, (set m | m in ms)`dispatchTime, (set m | m in ms)`receipients
    reads set m, i | m in ms && 0 <= i < |m.receipients| :: m.receipients[i]
    ensures |vs| == |ms|
    decreases |ms|
  {
    if ms == [] then []
    else [CompiledOf(ms[0].subject, ms[0].dispatchTime, ms[0].receipients)] + Views(ms[1..])
  }

  /** The messenger stores, as its compiled array, what it compiles to. */
  predicate Stored(m: Messenger)
    reads m`compiled, m`subject, m`dispatchTime, m`receipients, m.receipients
  {
    m.compiled == Some(CompiledOf(m.subject, m.dispatchTime, m.receipients))
  }

  /** The list without the name n. */
  function Erase(ns: seq<string>, n: string): (r: seq<string>)
    ensures forall x :: x in r <==> x in ns && x != n
    ensures Distinct(ns) ==> Distinct(r)
  {
    if ns == [] then []
    else if ns[0] == n then Erase(ns[1..], n)
    else
      var rest := Erase(ns[1..], n);
      assert Distinct(ns) ==> ns[0] !in ns[1..] && Distinct(ns[1..]);
      [ns[0]] + rest
  }

  predicate Distinct(ns: seq<string>)
  {
    forall i, j :: 0 <= i < j < |ns| ==> ns[i] != ns[j]
  }

  /** Options of `createMessenger`: the string-valued keys, and the recipient
      lists under `receipients`, `tos`, `bccs` and `ccs` (None: key not set). */
  datatype Options = Options(
    fields: map<string, string>,
    receipients: Option<seq<Record>>,
    tos: Option<seq<Record>>,
    bccs: Option<seq<Record>>,
    ccs: Option<seq<Record>>)

  function Entries(list: Option<seq<Record>>): seq<Record>
  {
    if list.Some? then list.value else []
  }

  class Gen {
    var fromEmail: Option<string>
    var fromName: Option<string>
    var replyToName: Option<string>
    var replyToEmail: Option<string>
    /** The keys of `_messengers` in insertion order, and the table itself. */
    var names: seq<string>
    var messengers: map<string, Messenger>
    var subject: Option<string>
    var dispatchTime: Option<string>
    var message: Message
    /** The last compiled document; None stands for the initial empty array. */
    var compiled: Option<Document>
    var token: Option<string>

    /** The ordered table: every key once, and the order lists exactly the
        keys of the table. */
    ghost predicate Valid()
      reads this`names, this`messengers
    {
      Distinct(names) && forall n :: n in messengers <==> n in names
    }

    constructor ()
      ensures Valid() && fresh(message)
      ensures message.GetBody() == Some("") && message.GetAlt() == Some("")
      ensures names == [] && messengers == map[] && compiled == None && token == None
      ensures fromEmail == None && fromName == None && replyToEmail == None && replyToName == None
      ensures subject == None && dispatchTime == None
    {
      fromEmail, fromName := None, None;
      replyToEmail, replyToName := None, None;
      subject, dispatchTime := None, None;
      names, messengers := [], map[];
      compiled, token := None, None;
      message := new Message.Empty();
    }

    /** The fields `compile` reads, including the message body. */
    function Current(): Settings
      reads this`subject, this`fromEmail, this`fromName, this`replyToEmail, this`replyToName
      reads this`dispatchTime, this`message, message
    {
      Settings(subject, fromEmail, fromName, replyToEmail, replyToName, dispatchTime,
               message.GetBody(), message.GetAlt())
    }

    /** The stored messenger, or None where the source returns false: found
        exactly for a registered name, and then one of the registered
        messengers. */
    function GetMessenger(name: string): (r: Option<Messenger>)
      reads this`messengers
      ensures r.Some? <==> name in messengers
      ensures r.Some? ==> r.value in messengers.Values
    {
      if name in messengers then Some(messengers[name]) else None
    }

    /** The registered messengers in insertion order, as `getMessengers`
        hands them out. */
    function Ordered(): seq<Messenger>
      reads this`names, this`messengers
      requires Valid()
    {
      InOrder(names, messengers)
    }

    /** `getMessengers` lists one entry per registered name, in insertion
        order, holding every registered messenger and nothing else. */
    lemma OrderedLists()
      requires Valid()
      ensures |Ordered()| == |names| == |messengers|
      ensures forall k :: 0 <= k < |names| ==> Ordered()[k] == messengers[names[k]]
      ensures forall m :: m in Ordered() <==> m in messengers.Values
    {
      KeyCount(names, messengers);
      InOrderCovers(names, messengers);
    }

    /** After a successful compile, which leaves messenger k in insertion
        order storing entry k of the document, every registered messenger
        stores what it compiles to. */
    lemma CompiledStored(doc: seq<CompiledMessenger>)
      requires Valid()
      requires doc == Views(Ordered())
      requires forall k :: 0 <= k < |names| ==> messengers[names[k]].compiled == Some(doc[k])
      ensures forall n :: n in messengers ==> Stored(messengers[n])
    {
      forall n | n in messengers
        ensures Stored(messengers[n])
      {
        var k :| 0 <= k < |names| && names[k] == n;
        ViewsAt(Ordered(), k);
      }
    }

    method SetFrom(email: Option<string>, name: Option<string>)
      modifies this`fromEmail, this`fromName
      ensures fromEmail == email && fromName == name
    {
      fromEmail, fromName := email, name;
    }

    method SetSubject(subject: Option<string>)
      modifies this`subject
      ensures this.subject == subject
    {
      this.subject := subject;
    }

    method SetReplyTo(email: Option<string>, name: Option<string>)
      modifies this`replyToEmail, this`replyToName
      ensures replyToEmail == email && replyToName == name
    {
      replyToEmail, replyToName := email, name;
    }

    method SetDispatchTime(dispatchTime: Option<string>)
      modifies this`dispatchTime
      ensures this.dispatchTime == dispatchTime
    {
      this.dispatchTime := dispatchTime;
    }

    method SetCredentials(token: Option<string>)
      modifies this`token
      ensures this.token == token
    {
      this.token := token;
    }

    method HtmlBody(html: Option<string>)
      modifies message`body
      ensures message.GetBody() == html && message.GetAlt() == old(message.GetAlt())
    {
      message.SetBody(html);
    }

    method AltBody(alt: Option<string>)
      modifies message`altBody
      ensures message.GetAlt() == alt && message.GetBody() == old(message.GetBody())
    {
      message.SetAlt(alt);
    }

    /** Stores m under its name. A new name goes to the end of the order; an
        existing name keeps its place and its messenger is replaced. */
    method AddMessenger(m: Messenger)
      requires Valid()
      modifies this`names, this`messengers
      ensures Valid()
      ensures messengers == old(messengers)[m.name := m]
      ensures names == if m.name in old(messengers) then old(names) else old(names) + [m.name]
      ensures GetMessenger(m.name) == Some(m)
    {
      if m.name !in messengers {
        names := names + [m.name];
      }
      messengers := messengers[m.name := m];
    }

    /** Removes the messenger named `name`; changes nothing when there is none. */
    method DropMessenger(name: string)
      requires Valid()
      modifies this`names, this`messengers
      ensures Valid()
      ensures messengers == old(messengers) - {name}
      ensures name !in old(messengers) ==> names == old(names)
      ensures names == Erase(old(names), name)
      ensures GetMessenger(name) == None
    {
      if name in messengers {
        messengers := messengers - {name};
      }
      EraseAbsent(names, name);
      names := Erase(names, name);
    }

    /** Builds a messenger from `options`, registers it under its name and
        returns it. The string options that are messenger fields are copied;
        then the recipients under `receipients` (default type direct), `tos`,
        `bccs` and `ccs` are added, in that order. */
    method CreateMessenger(options: Options, defaultName: string) returns (m: Messenger)
      requires Valid()
      modifies this`names, this`messengers
      ensures fresh(m) && Valid()
      ensures m.name == if "name" in options.fields then options.fields["name"] else defaultName
      ensures m.subject == if "subject" in options.fields then Some(options.fields["subject"]) else Some("")
      ensures m.dispatchTime == if "dispatch_time" in options.fields then Some(options.fields["dispatch_time"]) else None
      ensures Values(m.receipients) == Listing(options)
      ensures messengers == old(messengers)[m.name := m]
      ensures names == if m.name in old(messengers) then old(names) else old(names) + [m.name]
    {
      m := Build(options, defaultName);
      AddMessenger(m);
    }

    /** Checks the body, then the sender, then assembles the document with the
        messengers' compiled arrays in insertion order, one per registered
        messenger, and stores it as the builder's compiled document. */
    method Compile() returns (res: Result<Document, CompileError>)
      requires Valid()
      modifies this`compiled, messengers.Values`compiled
      ensures res == Assemble(Current(), Views(Ordered()))
      ensures res.Success? ==> compiled == Some(res.value) && |res.value.messengers| == |messengers|
      ensures res.Success? ==> forall k :: 0 <= k < |names| ==> messengers[names[k]].compiled == Some(res.value.messengers[k])
      ensures res.Failure? ==> compiled == old(compiled)
      ensures res.Failure? ==> forall m :: m in messengers.Values ==> m.compiled == old(m.compiled)
    {
      if !Truthy(message.GetBody()) {
        return Failure(EmptyBody);
      }
      if !Truthy(fromEmail) {
        return Failure(NoSender);
      }
      res := Fold();
      KeyCount(names, messengers);
    }

    /** The part of `compile` past the two checks: compiles every messenger
        in insertion order and stores the assembled document. */
    method Fold() returns (res: Result<Document, CompileError>)
      requires Valid() && Truthy(message.GetBody()) && Truthy(fromEmail)
      modifies this`compiled, messengers.Values`compiled
      ensures res == Assemble(Current(), Views(Ordered()))
      ensures res.Success? && compiled == Some(res.value)
      ensures forall k :: 0 <= k < |names| ==> messengers[names[k]].compiled == Some(res.value.messengers[k])
    {
      var ordered := InOrder(names, messengers);
      var out := CompileEach(ordered);
      res := Assemble(Current(), out);
      compiled := Some(res.value);
      ViewsOf(ordered, out);
    }

    /** Refuses to send without a token, before compiling anything; otherwise
        compiles and yields the document handed to the transport. */
    method Dispatch() returns (res: Result<Document, DispatchError>)
      requires Valid()
      modifies this`compiled, messengers.Values`compiled
      ensures !Truthy(token) ==> res == Failure(NoAuthorization) && compiled == old(compiled)
      ensures !Truthy(token) ==> forall m :: m in messengers.Values ==> m.compiled == old(m.compiled)
      ensures Truthy(token) ==> match Assemble(Current(), Views(Ordered()))
                                case Success(doc) => res == Success(doc) && compiled == Some(doc)
                                                     && forall k :: 0 <= k < |names| ==> messengers[names[k]].compiled == Some(doc.messengers[k])
                                case Failure(e) => res == Failure(Invalid(e)) && compiled == old(compiled)
                                                   && forall m :: m in messengers.Values ==> m.compiled == old(m.compiled)
    {
      if !Truthy(token) {
        return Failure(NoAuthorization);
      }
      var r := Compile();
      match r
      case Success(doc) => res := Success(doc);
      case Failure(e) => res := Failure(Invalid(e));
    }
  }

  /** The messenger `createMessenger` builds before registering it: a fresh
      messenger whose string fields come from the options, with the four
      recipient lists added in order. */
  method Build(options: Options, defaultName: string) returns (m: Messenger)
    ensures fresh(m)
    ensures m.name == if "name" in options.fields then options.fields["name"] else defaultName
    ensures m.subject == if "subject" in options.fields then Some(options.fields["subject"]) else Some("")
    ensures m.dispatchTime == if "dispatch_time" in options.fields then Some(options.fields["dispatch_time"]) else None
    ensures Values(m.receipients) == Listing(options)
  {
    m := new Messenger(defaultName);
    if "subject" in options.fields {
      m.subject := Some(options.fields["subject"]);
    }
    if "dispatch_time" in options.fields {
      m.dispatchTime := Some(options.fields["dispatch_time"]);
    }
    if "name" in options.fields {
      m.name := options.fields["name"];
    }
    assert Values(m.receipients) == [];
    AddLists(m, options);
    assert [] + Added(Entries(options.receipients), DirectType) == Added(Entries(options.receipients), DirectType);
  }

  /** The four recipient lists of the options added to m, in order:
      `receipients` and `tos` as direct, then `bccs`, then `ccs`. */
  method AddLists(m: Messenger, options: Options)
    modifies m`receipients
    ensures Values(m.receipients) == old(Values(m.receipients))
                                     + Added(Entries(options.receipients), DirectType)
                                     + Added(Entries(options.tos), DirectType)
                                     + Added(Entries(options.bccs), BCCType)
                                     + Added(Entries(options.ccs), CCType)
  {
    m.AddReceipients(Entries(options.receipients), DirectType);
    m.AddReceipients(Entries(options.tos), DirectType);
    m.AddReceipients(Entries(options.bccs), BCCType);
    m.AddReceipients(Entries(options.ccs), CCType);
  }

  /** The recipients `createMessenger` adds for these options, in order:
      `receipients` and `tos` as direct, then `bccs`, then `ccs`. */
  function Listing(options: Options): seq<ReceipientValue>
  {
    Added(Entries(options.receipients), DirectType)
    + Added(Entries(options.tos), DirectType)
    + Added(Entries(options.bccs), BCCType)
    + Added(Entries(options.ccs), CCType)
  }

  /** Compiles each messenger in turn, collecting the compiled arrays in
      order; each messenger keeps its own array as its compiled field. */
  method CompileEach(ms: seq<Messenger>) returns (out: seq<CompiledMessenger>)
    modifies (set m | m in ms)`compiled
    ensures |out| == |ms|
    ensures forall k :: 0 <= k < |ms| ==> out[k] == CompiledOf(ms[k].subject, ms[k].dispatchTime, ms[k].receipients)
    ensures forall k :: 0 <= k < |ms| ==> ms[k].compiled == Some(out[k])
  {
    out := [];
    var i := 0;
    while i < |ms|
      invariant 0 <= i <= |ms|
      invariant |out| == i
      invariant forall k :: 0 <= k < i ==> out[k] == CompiledOf(ms[k].subject, ms[k].dispatchTime, ms[k].receipients)
      invariant forall k :: 0 <= k < i ==> ms[k].compiled == Some(out[k])
    {
      var c := ms[i].Compile();
      out := out + [c];
      i := i + 1;
    }
  }

  /** A list holding, at each index, the compiled array of the messenger at
      that index is the compiled view of the list. */
  lemma ViewsOf(ms: seq<Messenger>, out: seq<CompiledMessenger>)
    requires |out| == |ms|
    requires forall k :: 0 <= k < |ms| ==> out[k] == CompiledOf(ms[k].subject, ms[k].dispatchTime, ms[k].receipients)
    ensures out == Views(ms)
  {
    forall k | 0 <= k < |ms|
      ensures Views(ms)[k] == out[k]
    {
      ViewsAt(ms, k);
    }
  }

  /** Element k of the compiled list is the compiled array of messenger k. */
  lemma {:induction false} ViewsAt(ms: seq<Messenger>, k: nat)
    requires k < |ms|
    ensures Views(ms)[k] == CompiledOf(ms[k].subject, ms[k].dispatchTime, ms[k].receipients)
  {
    if k > 0 {
      ViewsAt(ms[1..], k - 1);
    }
  }

  /** A list of distinct names has as many entries as its set of names. */
  lemma {:induction false} DistinctCount(ns: seq<string>)
    requires Distinct(ns)
    ensures |set n | n in ns| == |ns|
  {
    if ns != [] {
      DistinctCount(ns[1..]);
      assert (set n | n in ns) == {ns[0]} + (set n | n in ns[1..]);
      assert ns[0] !in ns[1..];
    }
  }

  /** A table whose keys are exactly the names of a list without repeats has
      as many entries as the list. */
  lemma KeyCount(ns: seq<string>, table: map<string, Messenger>)
    requires Distinct(ns) && forall n :: n in table <==> n in ns
    ensures |table| == |ns|
  {
    DistinctCount(ns);
    assert (set n | n in ns) == table.Keys;
  }

  /** Taking the messengers in the order of a list that names exactly the
      keys of the table yields every messenger of the table and no other. */
  lemma InOrderCovers(ns: seq<string>, table: map<string, Messenger>)
    requires forall n :: n in table <==> n in ns
    ensures forall m :: m in InOrder(ns, table) <==> m in table.Values
  {
    var ms := InOrder(ns, table);
    forall m | m in table.Values
      ensures m in ms
    {
      var n :| n in table && table[n] == m;
      var k :| 0 <= k < |ns| && ns[k] == n;
      assert ms[k] == m;
    }
  }

  /** Erasing a name from a list without repeats removes exactly its
      position: the other names keep their order. */
  lemma {:induction false} EraseAt(ns: seq<string>, j: nat)
    requires Distinct(ns) && j < |ns|
    ensures Erase(ns, ns[j]) == ns[..j] + ns[j + 1..]
  {
    if j == 0 {
      EraseAbsent(ns[1..], ns[0]);
    } else {
      EraseAt(ns[1..], j - 1);
      assert ns[1..][..j - 1] == ns[1..j];
      assert ns[1..][j..] == ns[j + 1..];
      assert ns[..j] == [ns[0]] + ns[1..j];
    }
  }

  /** Erasing a name that is not in the list changes nothing. */
  lemma {:induction false} EraseAbsent(ns: seq<string>, n: string)
    ensures n !in ns ==> Erase(ns, n) == ns
  {
    if ns != [] {
      EraseAbsent(ns[1..], n);
      assert ns == [ns[0]] + ns[1..];
    }
  }
}
