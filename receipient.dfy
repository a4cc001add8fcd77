/** One recipient of a messenger: an email address, an optional display name
    and a recipient type (`direct`, `cc`, `bcc`, or any other string). */
module Receipients {
  import opened Php

  /** The array a recipient compiles to. The `email` key is always present and
      its value may be null (after `Clear`); `name` is None when the key is
      left out. */
  datatype CompiledReceipient = CompiledReceipient(email: Option<string>, name: Option<string>)

  /** The fields of a recipient as a value, for stating what a list of
      recipient objects holds. */
  datatype ReceipientValue = ReceipientValue(email: Option<string>, name: Option<string>, kind: string)

  class Receipient {
    var email: Option<string>
    var name: Option<string>
    /** The recipient type; the source calls this field `type`. */
    var kind: string

    constructor (email: Option<string>, kind: string, name: Option<string>)
      ensures this.email == email && this.kind == kind && this.name == name
    {
      this.email := email;
      this.name := name;
      this.kind := kind;
    }

    function GetEmail(): Option<string>
      reads this
    {
      email
    }

    function GetName(): Option<string>
      reads this
    {
      name
    }

    function GetType(): string
      reads this
    {
      kind
    }

    function Value(): ReceipientValue
      reads this
    {
      ReceipientValue(email, name, kind)
    }

    method SetEmail(email: Option<string>)
      modifies this
      ensures GetEmail() == email
      ensures name == old(name) && kind == old(kind)
    {
      this.email := email;
    }

    method SetName(name: Option<string>)
      modifies this
      ensures GetName() == name
      ensures email == old(email) && kind == old(kind)
    {
      this.name := name;
    }

    method SetType(kind: string)
      modifies this
      ensures GetType() == kind
      ensures email == old(email) && name == old(name)
    {
      this.kind := kind;
    }

    /** Resets the address and the name to null; the type stays. The compiled
        form then still carries an `email` key, with a null value. */
    method Clear()
      modifies this
      ensures email == None && name == None && kind == old(kind)
      ensures Compile() == CompiledReceipient(None, None)
    {
      name := None;
      email := None;
    }

    /** The compiled array: always an `email` entry, and a `name` entry only
        when the name is truthy. Reading it changes no field. */
    function Compile(): (c: CompiledReceipient)
      reads this
      ensures c.email == email
      ensures c.name.Some? <==> Truthy(name)
      ensures c.name.Some? ==> c.name == name
    {
      CompiledReceipient(email, if Truthy(name) then name else None)
    }
  }
}
