/** A messenger: a named group of recipients, each tagged `direct`, `cc` or
    `bcc`, with a subject and an optional dispatch time. It compiles into one
    entry of the request's `messengers` list. */
module Messengers {
  import opened Php
  import opened Receipients

  /** The recipient type strings of the source's RCPT_* constants. */
  const DirectType := "direct"
  const CCType := "cc"
  const BCCType := "bcc"
  const AllType := "all"

  /** A recipient record as the source accepts it, with the keys `Email`,
      `Name` and, in a bulk add, `type`. A key holding null is absent here,
      since `isset` treats the two alike. */
  type Record = map<string, string>

  /** The array a messenger compiles to. `subject` is always present (its
      value may be null); for the other fields None means the key is left
      out. */
  datatype CompiledMessenger = CompiledMessenger(
    subject: Option<string>,
    dispatchTime: Option<string>,
    to: Option<seq<CompiledReceipient>>,
    cc: Option<seq<CompiledReceipient>>,
    bcc: Option<seq<CompiledReceipient>>)

  /*** Recipient lists ***/

  /** The recipients of type t, in list order: each one selected is in the
      list and has type t. */
  function OfType(rs: seq<Receipient>, t: string): (s: seq<Receipient>)
    reads rs
    ensures forall k :: 0 <= k < |s| ==> s[k] in rs && s[k].kind == t
  {
    if rs == [] then []
    else (if rs[0].kind == t then [rs[0]] else []) + OfType(rs[1..], t)
  }

  /** The recipients not of type t, in list order. */
  function WithoutType(rs: seq<Receipient>, t: string): seq<Receipient>
    reads rs
  {
    if rs == [] then []
    else (if rs[0].kind == t then [] else [rs[0]]) + WithoutType(rs[1..], t)
  }

  /** The test `clearReceipient` applies to each recipient: loose equality of
      the addresses and equal types. */
  predicate Matches(r: Receipient, email: Option<string>, t: string)
    reads r
  {
    LooseEq(r.email, email) && r.kind == t
  }

  /** The list without its first recipient that matches (email, t). */
  function DropFirst(rs: seq<Receipient>, email: Option<string>, t: string): seq<Receipient>
    reads rs
  {
    if rs == [] then []
    else if Matches(rs[0], email, t) then rs[1..]
    else [rs[0]] + DropFirst(rs[1..], email, t)
  }

  /** The compiled arrays of a list of recipients, one per recipient. */
  function CompileAll(rs: seq<Receipient>): (cs: seq<CompiledReceipient>)
    reads rs
    ensures |cs| == |rs|
  {
    if rs == [] then [] else [rs[0].Compile()] + CompileAll(rs[1..])
  }

  /** The compiled arrays of the recipients of type t, in list order: what
      one walk over the list collects for that type. */
  function CompiledOfType(rs: seq<Receipient>, t: string): seq<CompiledReceipient>
    reads rs
  {
    if rs == [] then []
    else (if rs[0].kind == t then [rs[0].Compile()] else []) + CompiledOfType(rs[1..], t)
  }

  /** A list key of the compiled array: left out when the list is empty. */
  function Listed(cs: seq<CompiledReceipient>): Option<seq<CompiledReceipient>>
  {
    if cs == [] then None else Some(cs)
  }

  /** What `compile` yields for a messenger with these fields and recipients. */
  function CompiledOf(subject: Option<string>, dispatchTime: Option<string>, rs: seq<Receipient>): CompiledMessenger
    reads rs
  {
    CompiledMessenger(
      subject,
      if Truthy(dispatchTime) then dispatchTime else None,
      Listed(CompiledOfType(rs, DirectType)),
      Listed(CompiledOfType(rs, CCType)),
      Listed(CompiledOfType(rs, BCCType)))
  }

  /** The recipient objects of a list, as values. */
  function Values(rs: seq<Receipient>): seq<ReceipientValue>
    reads rs
  {
    if rs == [] then [] else [rs[0].Value()] + Values(rs[1..])
  }

  /*** Adding from records ***/

  /** What adding `record` with type t appends: one recipient named from
      `Name` when the record has `Email`, nothing otherwise. */
  function Accepted(record: Record, t: string): seq<ReceipientValue>
  {
    if "Email" in record then
      [ReceipientValue(Some(record["Email"]), if "Name" in record then Some(record["Name"]) else None, t)]
    else []
  }

  /** The type in force after an entry of a bulk add: its own `type` if it has
      one, else the type in force before it. */
  function Step(entry: Record, t: string): string
  {
    if "type" in entry then entry["type"] else t
  }

  /** The type in force once a bulk add with default type t has walked
      through `entries`; it is also the type the last entry is added with. */
  function Carried(entries: seq<Record>, t: string): string
    decreases |entries|
  {
    if entries == [] then t
    else Step(entries[|entries| - 1], Carried(entries[..|entries| - 1], t))
  }

  /** The recipients a bulk add with default type t appends for `entries`. */
  function Added(entries: seq<Record>, t: string): seq<ReceipientValue>
    decreases |entries|
  {
    if entries == [] then []
    else
      var n := |entries| - 1;
      Added(entries[..n], t) + Accepted(entries[n], Carried(entries, t))
  }

  /*** The method-name routing of `__call` ***/

  /** The recipient type a wrapper passes on. */
  datatype Scope = Direct | CC | BCC | All

  function Tag(s: Scope): string
  {
    match s
    case Direct => DirectType
    case CC => CCType
    case BCC => BCCType
    case All => AllType
  }

  /** The private operation a wrapper forwards to: addReceipient,
      addReceipients, clearReceipient, clearReceipients, getReceipients. */
  datatype Op = Add | AddBulk | Drop | Clear | Get

  datatype Call = Call(op: Op, scope: Scope)

  datatype CallError =
    | NoSuchMethod(prop: string)   // the "no such method" exception
    | UndefinedConstant(constant: string)

  /** What a wrapper returns: the messenger itself (for chaining), false
      from a refused add, nothing from a drop that found no match, or a
      list of recipients. */
  datatype Reply = Chained | Refused | NoReply | ListReply(rs: seq<Receipient>)

  /** The documented wrapper name of a call, if the call has one, read off
      by operation and type (`RouteBack` shows `Route` maps it back). A direct add also
      has the short aliases `addReceipient` and `addReceipients`. */
  function Wrapper(c: Call): Option<string>
  {
    match c
    case Call(Add, Direct) => Some("addDirectReceipient")
    case Call(Add, CC) => Some("addCCReceipient")
    case Call(Add, BCC) => Some("addBCCReceipient")
    case Call(AddBulk, Direct) => Some("addDirectReceipients")
    case Call(AddBulk, CC) => Some("addCCReceipients")
    case Call(AddBulk, BCC) => Some("addBCCReceipients")
    case Call(Drop, Direct) => Some("dropReceipient")
    case Call(Drop, CC) => Some("dropCCReceipient")
    case Call(Drop, BCC) => Some("dropBCCReceipient")
    case Call(Clear, Direct) => Some("clearReceipients")
    case Call(Clear, CC) => Some("clearCCReceipients")
    case Call(Clear, BCC) => Some("clearBCCReceipients")
    case Call(Clear, All) => Some("clearAllReceipients")
    case Call(Get, Direct) => Some("getDirectReceipients")
    case Call(Get, CC) => Some("getCCReceipients")
    case Call(Get, BCC) => Some("getBCCReceipients")
    case Call(Get, All) => Some("getAllReceipients")
    case _ => None
  }

  /** The operation and type a wrapper name is routed to, or the error it
      raises. Every routed name is the documented wrapper of its call, or one of
      the two short aliases of a direct add; wrappers never pass `all` to an
      add or a drop; a name outside the table raises "no such method". */
  function Route(prop: string): (r: Result<Call, CallError>)
    ensures r.Success? ==> Wrapper(r.value) == Some(prop)
                           || (prop == "addReceipient" && r.value == Call(Add, Direct))
                           || (prop == "addReceipients" && r.value == Call(AddBulk, Direct))
    ensures r.Success? && r.value.scope == All ==> r.value.op == Clear || r.value.op == Get
    ensures r.Failure? ==> r == Failure(NoSuchMethod(prop))
                           || (prop == "getReceipients" && r == Failure(UndefinedConstant("RCPT_All")))
  {
    if prop == "addDirectReceipient" then Success(Call(Add, Direct))
    else if prop == "addReceipient" then Success(Call(Add, Direct))
    else if prop == "addCCReceipient" then Success(Call(Add, CC))
    else if prop == "addBCCReceipient" then Success(Call(Add, BCC))
    else if prop == "addDirectReceipients" then Success(Call(AddBulk, Direct))
    else if prop == "addReceipients" then Success(Call(AddBulk, Direct))
    else if prop == "addCCReceipients" then Success(Call(AddBulk, CC))
    else if prop == "addBCCReceipients" then Success(Call(AddBulk, BCC))
    else if prop == "dropReceipient" then Success(Call(Drop, Direct))
    else if prop == "dropCCReceipient" then Success(Call(Drop, CC))
    else if prop == "dropBCCReceipient" then Success(Call(Drop, BCC))
    else if prop == "clearReceipients" then Success(Call(Clear, Direct))
    else if prop == "clearCCReceipients" then Success(Call(Clear, CC))
    else if prop == "clearBCCReceipients" then Success(Call(Clear, BCC))
    else if prop == "clearAllReceipients" then Success(Call(Clear, All))
    // the source names RCPT_All, which the class does not define
    else if prop == "getReceipients" then Failure(UndefinedConstant("RCPT_All"))
    else if prop == "getDirectReceipients" then Success(Call(Get, Direct))
    else if prop == "getCCReceipients" then Success(Call(Get, CC))
    else if prop == "getBCCReceipients" then Success(Call(Get, BCC))
    else if prop == "getAllReceipients" then Success(Call(Get, All))
    else Failure(NoSuchMethod(prop))
  }

  /*** The messenger ***/

  class Messenger {
    var subject: Option<string>
    var dispatchTime: Option<string>
    var receipients: seq<Receipient>
    var name: string
    /** The last compiled array; None stands for the initial empty array. */
    var compiled: Option<CompiledMessenger>

    /** The source draws a random name when none is given; here the caller
        supplies it. */
    constructor (name: string)
      ensures this.name == name && subject == Some("") && dispatchTime == None
      ensures receipients == [] && compiled == None
    {
      this.name := name;
      subject := Some("");
      dispatchTime := None;
      receipients := [];
      compiled := None;
    }

    function GetSubject(): Option<string>
      reads this
    {
      subject
    }

    function GetDispatchTime(): Option<string>
      reads this
    {
      dispatchTime
    }

    function GetName(): string
      reads this
    {
      name
    }

    method SetSubject(subject: Option<string>)
      modifies this`subject
      ensures GetSubject() == subject
    {
      this.subject := subject;
    }

    /** As written, the setter assigns a variable that is never defined, so
        the dispatch time becomes null whatever the argument. */
    method SetDispatchTime(dispatchTime: Option<string>)
      modifies this`dispatchTime
      ensures GetDispatchTime() == None
    {
      this.dispatchTime := None;
    }

    method SetName(name: string)
      modifies this`name
      ensures GetName() == name
    {
      this.name := name;
    }

    /** Appends one recipient built from `record` when it has an `Email` key;
        otherwise reports false and changes nothing. */
    method AddReceipient(record: Record, t: string) returns (ok: bool)
      modifies this`receipients
      ensures ok <==> "Email" in record
      ensures !ok ==> receipients == old(receipients)
      ensures ok ==> |receipients| == |old(receipients)| + 1
                     && |receipients| >= |old(receipients)| && receipients[..|old(receipients)|] == old(receipients)
                     && fresh(receipients[|old(receipients)|])
      ensures Values(receipients) == old(Values(receipients)) + Accepted(record, t)
    {
      if "Email" in record {
        var name := if "Name" in record then Some(record["Name"]) else None;
        var r := new Receipient(Some(record["Email"]), t, name);
        ValuesAppend(receipients, [r]);
        receipients := receipients + [r];
        ok := true;
      } else {
        ok := false;
      }
    }

    /** Adds each entry in turn; an entry's `type` replaces the type in force
        for itself and every later entry of the same call. */
    method AddReceipients(entries: seq<Record>, t: string)
      modifies this`receipients
      ensures |receipients| >= |old(receipients)|
      ensures receipients[..|old(receipients)|] == old(receipients)
      ensures Values(receipients) == old(Values(receipients)) + Added(entries, t)
    {
      ghost var before := Values(receipients);
      var kind := t;
      var i := 0;
      while i < |entries|
        invariant 0 <= i <= |entries|
        invariant kind == Carried(entries[..i], t)
        invariant |receipients| >= |old(receipients)|
        invariant receipients[..|old(receipients)|] == old(receipients)
        invariant Values(receipients) == before + Added(entries[..i], t)
      {
        ghost var prev := receipients;
        ghost var seen := Values(receipients);
        AddedStep(entries, i, t);
        kind := Step(entries[i], kind);
        var _ := AddReceipient(entries[i], kind);
        assert receipients[..|old(receipients)|] == old(receipients) by {
          assert receipients[..|prev|] == prev;
          assert receipients[..|prev|][..|old(receipients)|] == receipients[..|old(receipients)|];
        }
        assert Values(receipients) == seen + Accepted(entries[i], kind);
        assert Values(receipients) == before + Added(entries[..i + 1], t);
        i := i + 1;
      }
      assert entries[..i] == entries;
    }

    /** Removes every recipient of type t, or all of them when t is `all`. */
    method ClearReceipients(t: string)
      modifies this`receipients
      ensures t == AllType ==> receipients == []
      ensures t != AllType ==> receipients == WithoutType(old(receipients), t)
    {
      if t == AllType {
        receipients := [];
      } else {
        // the source walks a copy of the list and unsets matching entries
        var rs, kept := receipients, receipients;
        var i, k := 0, 0;
        assert kept == WithoutType(rs[..0], t) + rs[0..] by {
          assert rs[..0] == [];
        }
        while i < |rs|
          invariant 0 <= i <= |rs|
          invariant kept == WithoutType(rs[..i], t) + rs[i..]
          invariant k == |kept| - (|rs| - i)
        {
          ghost var w := WithoutType(rs[..i], t);
          if rs[i].kind == t {
            kept := kept[..k] + kept[k + 1..];
          } else {
            k := k + 1;
          }
          assert kept == WithoutType(rs[..i + 1], t) + rs[i + 1..] by {
            WithoutTypeStep(rs, i, t);
            Splice(w, rs, i);
          }
          i := i + 1;
        }
        assert kept == WithoutType(rs, t) by {
          assert rs[..i] == rs;
        }
        receipients := kept;
      }
    }

    /** Removes the first recipient matching (email, t); reports whether there
        was one. */
    method ClearReceipient(email: Option<string>, t: string) returns (found: bool)
      modifies this`receipients
      ensures found <==> exists k :: 0 <= k < |old(receipients)| && Matches(old(receipients)[k], email, t)
      ensures receipients == DropFirst(old(receipients), email, t)
    {
      var i := 0;
      while i < |receipients|
        invariant 0 <= i <= |receipients|
        invariant forall k :: 0 <= k < i ==> !Matches(receipients[k], email, t)
      {
        if LooseEq(receipients[i].email, email) && receipients[i].kind == t {
          DropFirstAt(receipients, email, t, i);
          receipients := receipients[..i] + receipients[i + 1..];
          return true;
        }
        i := i + 1;
      }
      DropFirstNone(receipients, email, t);
      return false;
    }

    /** The recipients of type t in list order, or the whole list for `all`. */
    method GetReceipients(t: string) returns (s: seq<Receipient>)
      ensures t == AllType ==> s == receipients
      ensures t != AllType ==> s == OfType(receipients, t)
    {
      if t == AllType {
        return receipients;
      }
      s := [];
      var i := 0;
      while i < |receipients|
        invariant 0 <= i <= |receipients|
        invariant s == OfType(receipients[..i], t)
      {
        assert receipients[..i + 1] == receipients[..i] + [receipients[i]];
        OfTypeAppend(receipients[..i], [receipients[i]], t);
        if receipients[i].kind == t {
          s := s + [receipients[i]];
        }
        i := i + 1;
      }
      assert receipients[..i] == receipients;
    }

    /** Partitions the recipients into `to`, `cc` and `bcc`, and stores the
        result as the messenger's compiled array. */
    method Compile() returns (c: CompiledMessenger)
      modifies this`compiled
      ensures c == CompiledOf(subject, dispatchTime, receipients)
      ensures compiled == Some(c)
    {
      var rs := receipients;
      var tos, cc, bcc := [], [], [];
      var i := 0;
      while i < |rs|
        invariant 0 <= i <= |rs|
        invariant tos == CompiledOfType(rs[..i], DirectType)
        invariant cc == CompiledOfType(rs[..i], CCType)
        invariant bcc == CompiledOfType(rs[..i], BCCType)
      {
        var r := rs[i];
        if r.kind == DirectType {
          tos := tos + [r.Compile()];
        } else if r.kind == CCType {
          cc := cc + [r.Compile()];
        } else if r.kind == BCCType {
          bcc := bcc + [r.Compile()];
        }
        assert tos == CompiledOfType(rs[..i + 1], DirectType) by { CompileStep(rs, i, DirectType); }
        assert cc == CompiledOfType(rs[..i + 1], CCType) by { CompileStep(rs, i, CCType); }
        assert bcc == CompiledOfType(rs[..i + 1], BCCType) by { CompileStep(rs, i, BCCType); }
        i := i + 1;
      }
      c := CompiledMessenger(subject, if Truthy(dispatchTime) then dispatchTime else None,
                             Listed(tos), Listed(cc), Listed(bcc));
      assert c == CompiledOf(subject, dispatchTime, rs) by { assert rs[..i] == rs; }
      compiled := Some(c);
    }

    /** A call through `__call`: the wrapper name is routed to one of the
        recipient operations with the type it names. `record`, `entries` and
        `email` stand for the argument the operation takes. */
    method Invoke(prop: string, record: Record, entries: seq<Record>, email: Option<string>)
      returns (res: Result<Reply, CallError>)
      modifies this`receipients
      ensures Route(prop).Failure? ==> res == Failure(Route(prop).error) && receipients == old(receipients)
      ensures Route(prop).Success? ==> res.Success?
      ensures var r := Route(prop); r.Success? && r.value.op == Add ==>
                Values(receipients) == old(Values(receipients)) + Accepted(record, Tag(r.value.scope))
                && |receipients| >= |old(receipients)| && receipients[..|old(receipients)|] == old(receipients)
                && res.value == if "Email" in record then Chained else Refused
      ensures var r := Route(prop); r.Success? && r.value.op == AddBulk ==>
                Values(receipients) == old(Values(receipients)) + Added(entries, Tag(r.value.scope))
                && |receipients| >= |old(receipients)| && receipients[..|old(receipients)|] == old(receipients)
                && res.value == Chained
      ensures var r := Route(prop); r.Success? && r.value.op == Drop ==>
                receipients == DropFirst(old(receipients), email, Tag(r.value.scope))
                && (res.value == Chained <==> exists k :: 0 <= k < |old(receipients)|
                                                 && Matches(old(receipients)[k], email, Tag(r.value.scope)))
                && (res.value == Chained || res.value == NoReply)
      ensures var r := Route(prop); r.Success? && r.value.op == Clear ==>
                receipients == (if r.value.scope == All then [] else WithoutType(old(receipients), Tag(r.value.scope)))
                && res.value == Chained
      ensures var r := Route(prop); r.Success? && r.value.op == Get ==>
                receipients == old(receipients)
                && res.value == ListReply(if r.value.scope == All then receipients else OfType(receipients, Tag(r.value.scope)))
    {
      var r := Route(prop);
      if r.Failure? {
        return Failure(r.error);
      }
      var t := Tag(r.value.scope);
      match r.value.op
      case Add =>
        var ok := AddReceipient(record, t);
        res := Success(if ok then Chained else Refused);
      case AddBulk =>
        AddReceipients(entries, t);
        res := Success(Chained);
      case Drop =>
        var found := ClearReceipient(email, t);
        res := Success(if found then Chained else NoReply);
      case Clear =>
        ClearReceipients(t);
        res := Success(Chained);
      case Get =>
        var l := GetReceipients(t);
        res := Success(ListReply(l));
    }
  }

  /*** Properties of the recipient lists ***/

  /** Selecting by type distributes over concatenation: the selection keeps
      list order. */
  lemma {:induction false} OfTypeAppend(a: seq<Receipient>, b: seq<Receipient>, t: string)
    ensures OfType(a + b, t) == OfType(a, t) + OfType(b, t)
  {
    if a != [] {
      assert (a + b)[1..] == a[1..] + b;
      OfTypeAppend(a[1..], b, t);
    } else {
      assert a + b == b;
    }
  }

  lemma {:induction false} WithoutTypeAppend(a: seq<Receipient>, b: seq<Receipient>, t: string)
    ensures WithoutType(a + b, t) == WithoutType(a, t) + WithoutType(b, t)
  {
    if a != [] {
      assert (a + b)[1..] == a[1..] + b;
      WithoutTypeAppend(a[1..], b, t);
    } else {
      assert a + b == b;
    }
  }

  lemma {:induction false} CompileAllAppend(a: seq<Receipient>, b: seq<Receipient>)
    ensures CompileAll(a + b) == CompileAll(a) + CompileAll(b)
  {
    if a != [] {
      assert (a + b)[1..] == a[1..] + b;
      CompileAllAppend(a[1..], b);
    } else {
      assert a + b == b;
    }
  }

  lemma {:induction false} ValuesAppend(a: seq<Receipient>, b: seq<Receipient>)
    ensures Values(a + b) == Values(a) + Values(b)
  {
    if a != [] {
      assert (a + b)[1..] == a[1..] + b;
      ValuesAppend(a[1..], b);
    } else {
      assert a + b == b;
    }
  }

  /** Taking out the entry right after a prefix w leaves w and the rest. */
  lemma Splice(w: seq<Receipient>, rs: seq<Receipient>, i: nat)
    requires i < |rs|
    ensures (w + rs[i..])[..|w|] + (w + rs[i..])[|w| + 1..] == w + rs[i + 1..]
    ensures w + rs[i..] == (w + [rs[i]]) + rs[i + 1..]
  {
    assert rs[i..] == [rs[i]] + rs[i + 1..];
  }

  /** Walking one more recipient keeps it exactly when it is not of type t. */
  lemma WithoutTypeStep(rs: seq<Receipient>, i: nat, t: string)
    requires i < |rs|
    ensures WithoutType(rs[..i + 1], t)
            == WithoutType(rs[..i], t) + (if rs[i].kind == t then [] else [rs[i]])
  {
    assert rs[..i + 1] == rs[..i] + [rs[i]];
    assert [rs[i]][1..] == [];
    WithoutTypeAppend(rs[..i], [rs[i]], t);
  }

  lemma {:induction false} CompiledOfTypeAppend(a: seq<Receipient>, b: seq<Receipient>, t: string)
    ensures CompiledOfType(a + b, t) == CompiledOfType(a, t) + CompiledOfType(b, t)
  {
    if a != [] {
      assert (a + b)[1..] == a[1..] + b;
      CompiledOfTypeAppend(a[1..], b, t);
    } else {
      assert a + b == b;
    }
  }

  /** Walking one more recipient extends the compiled list of type t by that
      recipient's compiled array exactly when it has type t. */
  lemma CompileStep(rs: seq<Receipient>, i: nat, t: string)
    requires i < |rs|
    ensures CompiledOfType(rs[..i + 1], t)
            == CompiledOfType(rs[..i], t) + (if rs[i].kind == t then [rs[i].Compile()] else [])
  {
    assert rs[..i + 1] == rs[..i] + [rs[i]];
    assert [rs[i]][1..] == [];
    CompiledOfTypeAppend(rs[..i], [rs[i]], t);
  }

  /** The compiled list of type t is the compiled form of the recipients that
      `getReceipients` returns for t. */
  lemma {:induction false} CompiledOfTypeSelects(rs: seq<Receipient>, t: string)
    ensures CompiledOfType(rs, t) == CompileAll(OfType(rs, t))
  {
    if rs != [] {
      CompiledOfTypeSelects(rs[1..], t);
      CompileAllAppend(if rs[0].kind == t then [rs[0]] else [], OfType(rs[1..], t));
      assert [rs[0]][1..] == [];
    }
  }

  /** Selecting type t and dropping type t split the list: together they hold
      every recipient exactly as often as the list does. */
  lemma {:induction false} PartitionByType(rs: seq<Receipient>, t: string)
    ensures multiset(OfType(rs, t)) + multiset(WithoutType(rs, t)) == multiset(rs)
  {
    if rs != [] {
      PartitionByType(rs[1..], t);
      assert rs == [rs[0]] + rs[1..];
    }
  }

  /** Clearing type t leaves no recipient of type t and keeps the recipients of
      every other type, in their relative order. */
  lemma {:induction false} ClearKeepsOtherTypes(rs: seq<Receipient>, t: string, u: string)
    ensures OfType(WithoutType(rs, t), u) == if u == t then [] else OfType(rs, u)
  {
    if rs != [] {
      ClearKeepsOtherTypes(rs[1..], t, u);
      var w := WithoutType(rs[1..], t);
      if rs[0].kind == t {
        assert WithoutType(rs, t) == w;
      } else {
        assert WithoutType(rs, t) == [rs[0]] + w;
        assert ([rs[0]] + w)[1..] == w;
      }
    }
  }

  /** With j the first index matching (email, t), dropping removes exactly
      the recipient at j. */
  lemma {:induction false} DropFirstAt(rs: seq<Receipient>, email: Option<string>, t: string, j: nat)
    requires j < |rs| && Matches(rs[j], email, t)
    requires forall k :: 0 <= k < j ==> !Matches(rs[k], email, t)
    ensures DropFirst(rs, email, t) == rs[..j] + rs[j + 1..]
  {
    if j > 0 {
      DropFirstAt(rs[1..], email, t, j - 1);
      assert rs[1..][..j - 1] == rs[1..j];
      assert rs[..j] == [rs[0]] + rs[1..j];
      assert rs[1..][j..] == rs[j + 1..];
    }
  }

  /** With no recipient matching (email, t), dropping changes nothing. */
  lemma {:induction false} DropFirstNone(rs: seq<Receipient>, email: Option<string>, t: string)
    requires forall k :: 0 <= k < |rs| ==> !Matches(rs[k], email, t)
    ensures DropFirst(rs, email, t) == rs
  {
    if rs != [] {
      DropFirstNone(rs[1..], email, t);
      assert rs == [rs[0]] + rs[1..];
    }
  }

  /** Every recipient of type t in the list is selected. */
  lemma {:induction false} OfTypeComplete(rs: seq<Receipient>, t: string)
    ensures forall k :: 0 <= k < |rs| && rs[k].kind == t ==> rs[k] in OfType(rs, t)
  {
    if rs != [] {
      OfTypeComplete(rs[1..], t);
      forall k | 0 <= k < |rs| && rs[k].kind == t
        ensures rs[k] in OfType(rs, t)
      {
        if k > 0 {
          assert rs[k] == rs[1..][k - 1];
        }
      }
    }
  }

  /** A list holds no recipient of type t exactly when none of its entries has
      that type. */
  lemma OfTypeEmpty(rs: seq<Receipient>, t: string)
    ensures OfType(rs, t) == [] <==> forall k :: 0 <= k < |rs| ==> rs[k].kind != t
  {
    OfTypeComplete(rs, t);
    if OfType(rs, t) != [] {
      assert OfType(rs, t)[0] in OfType(rs, t);
    }
    if k :| 0 <= k < |rs| && rs[k].kind == t {
      assert rs[k] in OfType(rs, t);
    }
  }

  /** The shape of a compiled messenger: `subject` always, `dispatch_time`
      only when set, and each of `to`, `cc`, `bcc` present exactly when some
      recipient has that type, listing those recipients in list order. */
  lemma CompiledShape(subject: Option<string>, dispatchTime: Option<string>, rs: seq<Receipient>)
    ensures CompiledOf(subject, dispatchTime, rs).subject == subject
    ensures CompiledOf(subject, dispatchTime, rs).dispatchTime.Some? <==> Truthy(dispatchTime)
    ensures CompiledOf(subject, dispatchTime, rs).dispatchTime.Some?
            ==> CompiledOf(subject, dispatchTime, rs).dispatchTime == dispatchTime
    ensures CompiledOf(subject, dispatchTime, rs).to.Some?
            <==> exists k :: 0 <= k < |rs| && rs[k].kind == DirectType
    ensures CompiledOf(subject, dispatchTime, rs).cc.Some?
            <==> exists k :: 0 <= k < |rs| && rs[k].kind == CCType
    ensures CompiledOf(subject, dispatchTime, rs).bcc.Some?
            <==> exists k :: 0 <= k < |rs| && rs[k].kind == BCCType
    ensures CompiledOf(subject, dispatchTime, rs).to.Some?
            ==> CompiledOf(subject, dispatchTime, rs).to.value == CompileAll(OfType(rs, DirectType))
    ensures CompiledOf(subject, dispatchTime, rs).cc.Some?
            ==> CompiledOf(subject, dispatchTime, rs).cc.value == CompileAll(OfType(rs, CCType))
    ensures CompiledOf(subject, dispatchTime, rs).bcc.Some?
            ==> CompiledOf(subject, dispatchTime, rs).bcc.value == CompileAll(OfType(rs, BCCType))
  {
    OfTypeEmpty(rs, DirectType);
    OfTypeEmpty(rs, CCType);
    OfTypeEmpty(rs, BCCType);
    CompiledOfTypeSelects(rs, DirectType);
    CompiledOfTypeSelects(rs, CCType);
    CompiledOfTypeSelects(rs, BCCType);
  }

  /** A recipient not of type t leaves the selection of type t unchanged. */
  lemma OfTypeSkips(a: seq<Receipient>, r: Receipient, b: seq<Receipient>, t: string)
    requires r.kind != t
    ensures OfType(a + [r] + b, t) == OfType(a + b, t)
  {
    assert [r][1..] == [];
    OfTypeAppend(a + [r], b, t);
    OfTypeAppend(a, [r], t);
    OfTypeAppend(a, b, t);
  }

  /** A recipient whose type is none of direct, cc and bcc appears nowhere in
      the compiled messenger. */
  lemma CompileIgnoresOtherTypes(subject: Option<string>, dispatchTime: Option<string>,
                                 a: seq<Receipient>, r: Receipient, b: seq<Receipient>)
    requires r.kind != DirectType && r.kind != CCType && r.kind != BCCType
    ensures CompiledOf(subject, dispatchTime, a + [r] + b) == CompiledOf(subject, dispatchTime, a + b)
  {
    OfTypeSkips(a, r, b, DirectType);
    OfTypeSkips(a, r, b, CCType);
    OfTypeSkips(a, r, b, BCCType);
    forall t | t in {DirectType, CCType, BCCType}
      ensures CompiledOfType(a + [r] + b, t) == CompiledOfType(a + b, t)
    {
      CompiledOfTypeSelects(a + [r] + b, t);
      CompiledOfTypeSelects(a + b, t);
    }
  }

  /*** Properties of bulk adds ***/

  /** Before any entry carries a `type`, the default type is in force. */
  lemma {:induction false} CarriedDefault(entries: seq<Record>, t: string)
    requires forall k :: 0 <= k < |entries| ==> "type" !in entries[k]
    ensures Carried(entries, t) == t
  {
    if entries != [] {
      CarriedDefault(entries[..|entries| - 1], t);
    }
  }

  /** The type in force is that of the last entry carrying a `type`. */
  lemma {:induction false} CarriedLastTyped(entries: seq<Record>, t: string, j: nat)
    requires j < |entries| && "type" in entries[j]
    requires forall k :: j < k < |entries| ==> "type" !in entries[k]
    ensures Carried(entries, t) == entries[j]["type"]
  {
    if j < |entries| - 1 {
      CarriedLastTyped(entries[..|entries| - 1], t, j);
    }
  }

  /** One more entry of a bulk add: the type it sets, then what it appends. */
  lemma AddedStep(entries: seq<Record>, i: nat, t: string)
    requires i < |entries|
    ensures Carried(entries[..i + 1], t) == Step(entries[i], Carried(entries[..i], t))
    ensures Added(entries[..i + 1], t)
            == Added(entries[..i], t) + Accepted(entries[i], Step(entries[i], Carried(entries[..i], t)))
  {
    assert entries[..i + 1][..i] == entries[..i];
  }

  /** A bulk add of a + b is a bulk add of a followed by a bulk add of b that
      starts from the type a left in force. */
  lemma {:induction false} AddedAppend(a: seq<Record>, b: seq<Record>, t: string)
    ensures Carried(a + b, t) == Carried(b, Carried(a, t))
    ensures Added(a + b, t) == Added(a, t) + Added(b, Carried(a, t))
  {
    if b == [] {
      assert a + b == a;
    } else {
      var n := |b| - 1;
      assert (a + b)[..|a + b| - 1] == a + b[..n];
      AddedAppend(a, b[..n], t);
    }
  }

  /** Without any `type` in the entries, every added recipient has the default
      type: a bulk add through one wrapper stays within one type. */
  lemma {:induction false} AddedKinds(entries: seq<Record>, t: string)
    requires forall k :: 0 <= k < |entries| ==> "type" !in entries[k]
    ensures forall v :: v in Added(entries, t) ==> v.kind == t
  {
    if entries != [] {
      var n := |entries| - 1;
      AddedKinds(entries[..n], t);
      CarriedDefault(entries, t);
    }
  }

  /** Entries without an `Email` key, such as records written with lower-case
      keys, add no recipient at all. */
  lemma {:induction false} AddedNeedsEmail(entries: seq<Record>, t: string)
    requires forall k :: 0 <= k < |entries| ==> "Email" !in entries[k]
    ensures Added(entries, t) == []
  {
    if entries != [] {
      AddedNeedsEmail(entries[..|entries| - 1], t);
    }
  }

  /** The plain `getReceipients` wrapper names the constant RCPT_All, which
      the class does not define, so it raises instead of returning the list. */
  lemma RouteGetReceipients()
    ensures Route("getReceipients") == Failure(UndefinedConstant("RCPT_All"))
  {
  }

  /** Every call that has a wrapper is routed back to it from its wrapper
      name: with `Route`'s own contract, `Wrapper` and `Route` are inverse
      on the documented wrappers. Only clear and get have an `all` wrapper. */
  lemma RouteBack(c: Call)
    ensures Wrapper(c).Some? <==> c.scope != All || c.op == Clear || c.op == Get
    ensures Wrapper(c).Some? ==> Route(Wrapper(c).value) == Success(c)
  {
    match c.op
    case Add => if Wrapper(c).Some? { RouteBackAdd(c.scope); }
    case AddBulk => if Wrapper(c).Some? { RouteBackAddBulk(c.scope); }
    case Drop => if Wrapper(c).Some? { RouteBackDrop(c.scope); }
    case Clear => RouteBackClear(c.scope);
    case Get => RouteBackGet(c.scope);
  }

  lemma RouteBackAdd(s: Scope)
    requires Wrapper(Call(Add, s)).Some?
    ensures Route(Wrapper(Call(Add, s)).value) == Success(Call(Add, s))
  {
    match s
    case Direct => assert Route("addDirectReceipient") == Success(Call(Add, Direct));
    case CC => assert Route("addCCReceipient") == Success(Call(Add, CC));
    case BCC => assert Route("addBCCReceipient") == Success(Call(Add, BCC));
  }

  lemma RouteBackAddBulk(s: Scope)
    requires Wrapper(Call(AddBulk, s)).Some?
    ensures Route(Wrapper(Call(AddBulk, s)).value) == Success(Call(AddBulk, s))
  {
    match s
    case Direct => assert Route("addDirectReceipients") == Success(Call(AddBulk, Direct));
    case CC => assert Route("addCCReceipients") == Success(Call(AddBulk, CC));
    case BCC => assert Route("addBCCReceipients") == Success(Call(AddBulk, BCC));
  }

  lemma RouteBackDrop(s: Scope)
    requires Wrapper(Call(Drop, s)).Some?
    ensures Route(Wrapper(Call(Drop, s)).value) == Success(Call(Drop, s))
  {
    match s
    case Direct => assert Route("dropReceipient") == Success(Call(Drop, Direct));
    case CC => assert Route("dropCCReceipient") == Success(Call(Drop, CC));
    case BCC => assert Route("dropBCCReceipient") == Success(Call(Drop, BCC));
  }

  lemma RouteBackClear(s: Scope)
    ensures Route(Wrapper(Call(Clear, s)).value) == Success(Call(Clear, s))
  {
    match s
    case Direct => RouteClearDirect();
    case CC => RouteClearCC();
    case BCC => RouteClearBCC();
    case All => RouteClearAll();
  }

  /** The clear wrappers, one at a time: each reaches a clear of its type. */
  lemma RouteClearDirect()
    ensures Route("clearReceipients") == Success(Call(Clear, Direct))
  {
  }

  lemma RouteClearCC()
    ensures Route("clearCCReceipients") == Success(Call(Clear, CC))
  {
  }

  lemma RouteClearBCC()
    ensures Route("clearBCCReceipients") == Success(Call(Clear, BCC))
  {
  }

  lemma RouteClearAll()
    ensures Route("clearAllReceipients") == Success(Call(Clear, All))
  {
  }

  lemma RouteBackGet(s: Scope)
    ensures Route(Wrapper(Call(Get, s)).value) == Success(Call(Get, s))
  {
    match s
    case Direct => RouteGetDirect();
    case CC => RouteGetCC();
    case BCC => RouteGetBCC();
    case All => RouteGetAll();
  }

  /** The get wrappers, one at a time: each reaches a get of its type. */
  lemma RouteGetDirect()
    ensures Route("getDirectReceipients") == Success(Call(Get, Direct))
  {
  }

  lemma RouteGetCC()
    ensures Route("getCCReceipients") == Success(Call(Get, CC))
  {
  }

  lemma RouteGetBCC()
    ensures Route("getBCCReceipients") == Success(Call(Get, BCC))
  {
  }

  lemma RouteGetAll()
    ensures Route("getAllReceipients") == Success(Call(Get, All))
  {
  }

  /** The two short aliases reach a direct add. */
  lemma RouteAliases()
    ensures Route("addReceipient") == Success(Call(Add, Direct))
    ensures Route("addReceipients") == Success(Call(AddBulk, Direct))
  {
  }
}
