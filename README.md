# AlianzMailer payload assembly in Dafny

This project models the part of the AlianzMailer PHP library that builds the
request document sent to the mail provider. It covers:

- `Receipient`: one address with an optional name and a recipient type.
- `Messenger`: a named, ordered list of recipients with a subject and a
  dispatch time. Recipients are added from records, singly or in bulk. They
  are cleared by type, dropped one at a time, queried by type, and compiled
  into `to` / `cc` / `bcc` lists.
- `Message`: the HTML body and its plain-text alternative.
- `Gen`: the request builder. It holds the sender, the reply-to address, the
  subject, the dispatch time, the body and a name-keyed, insertion-ordered
  table of messengers. Its `compile` checks the body and then the sender, and
  assembles the document with one compiled entry per messenger. Its
  `dispatch` refuses to go on without a bearer token.

Each PHP class is a Dafny `class` whose methods update its fields in place.
A messenger's recipient list is a `seq<Receipient>` of objects, because the
source hands those objects out by `getReceipients`. The messenger table of
`Gen` is a PHP ordered array. It is modelled as a list of names in insertion
order (`names`) beside a `map` from name to messenger. Re-adding a name keeps
its position and replaces the messenger.

Each method is proved against a specification function over the old state:
`OfType`, `WithoutType`, `DropFirst`, `CompiledOf`, `Added` and `Assemble`.
Lemmas then state what the source promises about those functions.

PHP values are modelled as follows (module `Php`):

- A nullable string, or an array key that may be missing, is an
  `Option<string>`.
- `if ($x)` and `empty($x)` are `Truthy`: set and not the empty string.
- The loose `==` used when dropping a recipient is `LooseEq`, under which null
  equals `""`.
- A thrown exception is the `Failure` case of a `Result`, carrying the
  exception's message (`ErrorMessage`, `DispatchMessage`).

The model follows the code where it departs from its own documentation:

- A `type` on one entry of a bulk add stays in force for every later entry
  of the same call, not only for that entry. `CarriedLastTyped` and
  `AddedAppend` state this.
- Records must use the keys `Email` and `Name`. A record written with
  lower-case keys, as in the `createMessenger` doc comment, adds nobody
  (`AddedNeedsEmail`).
- A compiled messenger always carries `subject`, even when it was never set
  (`CompiledShape`).
- `Messenger::setDispatchTime` assigns a variable that does not exist, so
  the dispatch time always becomes null (`Messengers.Messenger.SetDispatchTime`).
- The plain `getReceipients` wrapper names the constant `RCPT_All`, which the
  class does not define. That call therefore raises instead of returning the
  list (`RouteGetReceipients`).
- `createMessenger` adds all of `receipients`, `tos`, `bccs` and `ccs` when
  they are set, in that order, not just one of them.
- `clear` on a recipient sets the email and the name to null. The compiled
  recipient then still has an `email` key, with a null value.
- Clearing with type `all` empties the whole list, whatever types it holds.
- `compile` checks neither the alternative text nor the number of
  messengers. A document with no messengers compiles.
- The object branch of `addReceipient` cannot be reached, because the
  parameter is declared `Array`. Only records are modelled.

## Model

| member | source | states |
|---|---|---|
| Receipients.Receipient.constructor | PHP/AlianzMailer/Messenger/Receipient.php:47-52 | the email, type and name are stored as given |
| Receipients.Receipient.SetEmail | PHP/AlianzMailer/Messenger/Receipient.php:58-70 | `getEmail` then returns the new address; name and type are unchanged |
| Receipients.Receipient.SetName | PHP/AlianzMailer/Messenger/Receipient.php:76-88 | `getName` then returns the new name; email and type are unchanged |
| Receipients.Receipient.SetType | PHP/AlianzMailer/Messenger/Receipient.php:95-107 | `getType` then returns the new type; email and name are unchanged |
| Receipients.Receipient.Clear | PHP/AlianzMailer/Messenger/Receipient.php:112-117 | email and name become null and the type stays; the compiled form is then an `email` key holding null and no `name` |
| Receipients.Receipient.Compile | PHP/AlianzMailer/Messenger/Receipient.php:123-132 | the `email` key is always present and holds the email; `name` is present exactly when the name is truthy, and then holds it; reading it changes no field |
| Messages.Message.Empty | PHP/AlianzMailer/Message.php:27-44 | a message built without arguments has the empty string as body and as alternative, so its body counts as empty |
| Messages.Message.constructor | PHP/AlianzMailer/Message.php:40-44 | the HTML and the alternative text are stored unchanged |
| Messages.Message.SetBody | PHP/AlianzMailer/Message.php:50-62 | `getBody` then returns the new body; the alternative is unchanged |
| Messages.Message.SetAlt | PHP/AlianzMailer/Message.php:69-82 | `getAlt` then returns the new alternative; the body is unchanged |
| Messengers.Messenger.constructor | PHP/AlianzMailer/Messenger.php:30-65 | a new messenger has the given name, subject `""`, no dispatch time, no recipients and an empty compiled array |
| Messengers.Messenger.SetSubject | PHP/AlianzMailer/Messenger.php:71-83 | `getSubject` then returns the new subject |
| Messengers.Messenger.SetDispatchTime | PHP/AlianzMailer/Messenger.php:90-103 | whatever the argument, `getDispatchTime` then returns null |
| Messengers.Messenger.SetName | PHP/AlianzMailer/Messenger.php:109-121 | `getName` then returns the new name |
| Messengers.Messenger.AddReceipient | PHP/AlianzMailer/Messenger.php:137-155 | succeeds exactly when the record has `Email`; on success one fresh recipient with that email, the record's `Name` if any and the given type is appended and the old entries are kept; otherwise the list is unchanged |
| Messengers.Messenger.AddReceipients | PHP/AlianzMailer/Messenger.php:163-175 | the list grows by exactly the recipients `Added` describes, entry by entry in list order, with the old entries kept in front |
| Messengers.Messenger.ClearReceipients | PHP/AlianzMailer/Messenger.php:183-199 | `all` empties the list; any other type leaves exactly the recipients not of that type, in their order |
| Messengers.Messenger.ClearReceipient | PHP/AlianzMailer/Messenger.php:207-215 | reports a match exactly when some recipient matches (email, type); the new list is the old one without its first match, and unchanged when there is none |
| Messengers.Messenger.GetReceipients | PHP/AlianzMailer/Messenger.php:223-240 | `all` yields the whole list; any other type yields the recipients of that type in list order; nothing changes |
| Messengers.Messenger.Compile | PHP/AlianzMailer/Messenger.php:247-284 | the result, also stored as the compiled array, is `CompiledOf` the messenger's subject, dispatch time and recipients |
| Messengers.OfType | PHP/AlianzMailer/Messenger.php:229-238 | every recipient selected is in the list and has the requested type |
| Messengers.OfTypeComplete | PHP/AlianzMailer/Messenger.php:229-238 | every recipient of the requested type is selected |
| Messengers.OfTypeEmpty | PHP/AlianzMailer/Messenger.php:229-238 | the selection is empty exactly when no recipient has the type |
| Messengers.OfTypeAppend | PHP/AlianzMailer/Messenger.php:229-238 | selecting from a concatenation selects from each part in turn, so list order is kept |
| Messengers.WithoutTypeAppend | PHP/AlianzMailer/Messenger.php:189-195 | removing a type from a concatenation removes it from each part in turn, so the order of the rest is kept |
| Messengers.PartitionByType | PHP/AlianzMailer/Messenger.php:183-199 | the recipients of a type plus the recipients left by clearing that type are, as a multiset, the whole list |
| Messengers.ClearKeepsOtherTypes | PHP/AlianzMailer/Messenger.php:183-199 | after clearing a type none of it is left, and every other type's recipients are exactly as before, in order |
| Messengers.DropFirstAt | PHP/AlianzMailer/Messenger.php:207-215 | with j the first matching index, dropping removes exactly the recipient at j |
| Messengers.DropFirstNone | PHP/AlianzMailer/Messenger.php:207-215 | with no matching recipient, dropping changes nothing |
| Messengers.CompiledOfTypeSelects | PHP/AlianzMailer/Messenger.php:255-272 | the list collected for a type is the compiled form of exactly the recipients `getReceipients` returns for it |
| Messengers.CompiledShape | PHP/AlianzMailer/Messenger.php:247-284 | `subject` is always present; `dispatch_time` only when truthy; `dispatch_time`, when present, holds the messenger's dispatch time; `to`, `cc`, `bcc` each present exactly when some recipient has that type, and then listing those recipients compiled, in list order |
| Messengers.CompileIgnoresOtherTypes | PHP/AlianzMailer/Messenger.php:258-271 | a recipient whose type is none of direct, cc and bcc leaves the compiled messenger unchanged |
| Messengers.CarriedDefault | PHP/AlianzMailer/Messenger.php:163-175 | while no entry carries `type`, the call's default type is in force |
| Messengers.CarriedLastTyped | PHP/AlianzMailer/Messenger.php:163-175 | after the last entry carrying `type`, that type stays in force for the rest of the call |
| Messengers.AddedAppend | PHP/AlianzMailer/Messenger.php:163-175 | a bulk add of a + b is a bulk add of a followed by a bulk add of b that starts from the type a left in force |
| Messengers.AddedKinds | PHP/AlianzMailer/Messenger.php:163-175 | when no entry carries `type`, every recipient added has the call's type |
| Messengers.AddedNeedsEmail | PHP/AlianzMailer/Messenger.php:137-155 | entries without an `Email` key, such as lower-case records, add nobody |
| Messengers.Route | PHP/AlianzMailer/Messenger.php:329-403 | the routing table in both directions, with `RouteBack`: every name that is routed is the documented wrapper of the operation and type it reaches (`Wrapper`, the table read by operation and type), or one of the aliases `addReceipient` / `addReceipients` of a direct add; `all` reaches only clear and get; every name that is not routed raises "no such method" naming it, except `getReceipients`, which raises on `RCPT_All` |
| Messengers.RouteBack | PHP/AlianzMailer/Messenger.php:331-396 | a call has a documented wrapper exactly when its type is not `all` or its operation is clear or get, and that wrapper's name is routed back to exactly that call; with `Route`'s contract the wrapper table and the routing are inverse |
| Messengers.RouteAliases | PHP/AlianzMailer/Messenger.php:335-350 | the short names `addReceipient` and `addReceipients` reach a direct add and a direct bulk add |
| Messengers.Messenger.Invoke | PHP/AlianzMailer/Messenger.php:329-403 | a routed wrapper performs its operation with the type it names: add and bulk add append exactly `Accepted` / `Added` for that type, keeping the old entries in front in their order; drop removes the first match of that type; clear removes that type, or everything for `all`; get returns that type's recipients, or the whole list for `all`; the reply is the messenger, false from a refused add, nothing from a drop without a match, or the list; a name that is not routed changes nothing and raises its routing error |
| Messengers.RouteGetReceipients | PHP/AlianzMailer/Messenger.php:382-384 | the plain `getReceipients` wrapper raises on the undefined constant `RCPT_All` |
| Gens.Assemble | PHP/AlianzMailer/Gen.php:285-322 | an empty body fails with "Message body cannot be empty" before the sender is looked at; otherwise an empty sender fails with "Message needs a sender"; on success subject, `from.email` and both bodies are copied, `from.name` and `dispatch_time` are present exactly when truthy, `reply_to` exactly when its email is truthy, with `name` only when the reply-to name is also truthy, and `messengers` is the given list |
| Gens.InOrderCovers | PHP/AlianzMailer/Gen.php:317-321 | taking the messengers in the order of the names yields every registered messenger and no other, so every registered messenger is compiled |
| Gens.Erase | PHP/AlianzMailer/Gen.php:225-231 | the order keeps every name except the dropped one, and stays free of repeats; `EraseAt` states that the remaining names keep their order |
| Gens.EraseAt | PHP/AlianzMailer/Gen.php:225-231 | in an order without repeats, dropping the name at position j removes exactly that position: the names before and after it keep their order |
| Gens.EraseAbsent | PHP/AlianzMailer/Gen.php:225-231 | dropping a name that is not registered leaves the order unchanged |
| Gens.DistinctCount | PHP/AlianzMailer/Gen.php:317-321 | an order without repeats has as many names as its set of names |
| Gens.KeyCount | PHP/AlianzMailer/Gen.php:317-321 | the table has as many messengers as the order has names |
| Gens.ViewsAt | PHP/AlianzMailer/Gen.php:317-321 | entry k of the compiled list is what messenger k compiles to |
| Gens.ViewsOf | PHP/AlianzMailer/Gen.php:317-321 | a list holding at each index what that messenger compiles to is the compiled list |
| Gens.CompileEach | PHP/AlianzMailer/Gen.php:317-321 | compiles every messenger in turn and returns, index by index, what each compiles to; each messenger stores its entry as its compiled array |
| Gens.Build | PHP/AlianzMailer/Gen.php:184-214 | a fresh messenger gets its name, subject and dispatch time from the options (otherwise the default name, `""` and null), then the recipients of `receipients`, `tos`, `bccs` and `ccs`, in that order |
| Gens.AddLists | PHP/AlianzMailer/Gen.php:200-214 | `receipients` and `tos` are added as direct, then `bccs` as bcc, then `ccs` as cc, after the recipients already there |
| Gens.Gen.constructor | PHP/AlianzMailer/Gen.php:89-92 | a new builder owns a fresh empty message and has no sender, reply-to, subject, dispatch time, messengers, compiled document or token |
| Gens.Gen.SetFrom | PHP/AlianzMailer/Gen.php:100-105 | stores the sender address and name |
| Gens.Gen.SetSubject | PHP/AlianzMailer/Gen.php:112-116 | stores the subject |
| Gens.Gen.SetReplyTo | PHP/AlianzMailer/Gen.php:124-129 | stores the reply-to address and name |
| Gens.Gen.SetDispatchTime | PHP/AlianzMailer/Gen.php:140-144 | stores the dispatch time |
| Gens.Gen.SetCredentials | PHP/AlianzMailer/Gen.php:339-343 | stores the token |
| Gens.Gen.HtmlBody | PHP/AlianzMailer/Gen.php:261-265 | the message body becomes the given HTML; the alternative is unchanged |
| Gens.Gen.AltBody | PHP/AlianzMailer/Gen.php:273-277 | the alternative becomes the given text; the body is unchanged |
| Gens.Gen.AddMessenger | PHP/AlianzMailer/Gen.php:158-162 | the messenger is stored under its name, replacing any other of that name; a new name goes to the end of the order, a known one keeps its place; the table stays consistent |
| Gens.Gen.DropMessenger | PHP/AlianzMailer/Gen.php:225-231 | the name is removed from the table and the order; an unknown name changes nothing; `getMessenger` then finds nothing |
| Gens.Gen.CreateMessenger | PHP/AlianzMailer/Gen.php:184-217 | returns a fresh messenger built as `Build` states, registered under its name as `AddMessenger` states |
| Gens.Gen.Compile | PHP/AlianzMailer/Gen.php:285-323 | the result is `Assemble` of the builder's fields and of what each registered messenger compiles to, in insertion order; on success it is stored, lists exactly one entry per registered messenger, and messenger k in insertion order stores entry k as its own compiled array; on failure no compiled array changes |
| Gens.Gen.Fold | PHP/AlianzMailer/Gen.php:293-322 | past the two checks, compiles every messenger in insertion order, leaves messenger k storing entry k of the document, and stores the assembled document |
| Gens.Gen.Dispatch | PHP/AlianzMailer/Gen.php:352-363 | without a truthy token it fails with "Authorization info not found" and compiles nothing; otherwise it yields the freshly compiled document, stored by the builder and, entry by entry, by the messengers; or the compile error, with the stored document and every messenger's compiled array unchanged |
| Gens.Gen.GetMessenger | PHP/AlianzMailer/Gen.php:237-243 | finds a messenger exactly for a registered name, and then one of the registered messengers; otherwise None, where the source returns false |
| Gens.Gen.OrderedLists | PHP/AlianzMailer/Gen.php:250-253 | `getMessengers` lists one entry per registered name in insertion order, holding every registered messenger and no other |
| Gens.Gen.CompiledStored | PHP/AlianzMailer/Gen.php:317-321 | after a successful compile every registered messenger stores, as its compiled array, what it compiles to |

## Left out

- The transport (`Dispatcher.php`) is not part of this model: the HTTP POST, JSON encoding and the reading of the provider's response. `Dispatch` stops at the compiled document that would be handed to it.
- The random default name of a new messenger (`md5(rand(...))`) is a parameter of `Messengers.Messenger.constructor` and of `Gens.Build`.
- `__call` is modelled by `Route`, which maps a wrapper name to an operation and a recipient type, and by `Messenger.Invoke`, which performs it. `Invoke` takes the record, the entries and the email as separate parameters and uses the one the operation needs. Unpacking `$val[0]`, passing an argument of the wrong kind, and the call through `call_user_func_array` are not modelled.
- PHP's loose comparison of numeric strings, and `"0"` counting as empty, are not modelled. Types, emails and names compare as plain strings, and only null and `""` count as empty.
- PHP arrays keep their keys when `unset` removes an entry. The model renumbers the recipient list, which keeps the same order.
- Gens.Build: copies only the string option keys `subject`, `dispatch_time` and `name`. Non-string option values and an option named `compiled` are not modelled.
- The setters' `return $this` (for chaining) is not modelled; the setters return nothing.
- `getMessengers` and `getCompiled` are not separate methods. `getMessengers` is the function `Gen.Ordered` (see `Gen.OrderedLists`), and `getCompiled` only calls `compile`.
- The PHP warnings for a missing `_messengers` table or `token` field are not modelled. Both start out empty.
- Email syntax and HTML content are not checked, as in the source.
- Messengers.Messenger.AddReceipients: states the new recipients by value, plus the kept prefix. It does not state that each appended object is fresh.
