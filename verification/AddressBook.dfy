/** The address book: contacts by name, and the index from normalized addresses back to names. */
module AddressBook {
  import opened Wrappers
  import opened Domain
  import opened Text

  datatype BookError =
    | Validation(field: string)
    | AlreadyExists(name: string)
    | ContactNotFound(name: string)
    | ContactEmpty
    | InvalidNervosAddress
    | InvalidEthereumAddress
    | AddressNotFoundForChain(name: string, chain: ChainKind)
    | ChainUnavailable(chain: ChainKind)
    | InvalidAddress(message: string)
    | UniqueConstraint

  /** What the book calls but does not contain: the chains' address normalizers, a missing one
      answering `ChainUnavailable`, and the lower-casing of the platform. */
  datatype Ports = Ports(ckb: string -> Result<string, BookError>, evm: string -> Result<string, BookError>,
                         lower: string -> string)

  datatype Contact = Contact(
    contactId: Id, name: string, normalizedName: string, note: Option<string>,
    nervosAddress: Option<string>, normalizedNervosAddress: Option<string>,
    ethereumAddress: Option<string>, normalizedEthereumAddress: Option<string>,
    createdAt: Instant, updatedAt: Instant)
  {
    function Address(chain: ChainKind): Option<string> {
      if chain == Ckb then nervosAddress else ethereumAddress
    }

    function NormalizedAddress(chain: ChainKind): Option<string> {
      if chain == Ckb then normalizedNervosAddress else normalizedEthereumAddress
    }
  }

  type Book = map<Id, Contact>

  datatype ContactInput = ContactInput(name: string, note: Option<string>,
                                       nervosAddress: Option<string>, ethereumAddress: Option<string>)

  datatype ChainAddress = ChainAddress(original: Option<string>, normalized: Option<string>)

  datatype NormalizedContact = NormalizedContact(name: string, normalizedName: string, note: Option<string>,
                                                 nervos: ChainAddress, ethereum: ChainAddress)

  // --------------------------------------------------------------------------- normalization

  function NormalizeRequiredString(value: string, field: string): Result<string, BookError> {
    if Trim(value) == "" then Err(Validation(field)) else Ok(Trim(value))
  }

  function NormalizeOptionalNote(note: Option<string>): Option<string> {
    if note.Some? && Trim(note.value) != "" then Some(Trim(note.value)) else None
  }

  function NormalizeAddressForChain(p: Ports, chain: ChainKind, address: string): Result<string, BookError> {
    if chain == Ckb then p.ckb(address) else p.evm(address)
  }

  function NormalizeOptionalChainAddress(p: Ports, chain: ChainKind, value: Option<string>): Result<ChainAddress, BookError> {
    match value
    case None => Ok(ChainAddress(None, None))
    case Some(v) =>
      match NormalizeRequiredString(v, if chain == Ckb then "nervosAddress" else "ethereumAddress")
      case Err(e) => Err(e)
      case Ok(original) =>
        match NormalizeAddressForChain(p, chain, original)
        case Err(_) => Err(if chain == Ckb then InvalidNervosAddress else InvalidEthereumAddress)
        case Ok(normalized) => Ok(ChainAddress(Some(original), Some(normalized)))
  }

  /** The two addresses are normalized concurrently: if both fail, the error reported is that of
      whichever fails first. */
  function NormalizeContactInput(p: Ports, input: ContactInput, ethereumFirst: bool): Result<NormalizedContact, BookError> {
    match NormalizeRequiredString(input.name, "name")
    case Err(e) => Err(e)
    case Ok(name) =>
      var nervos := NormalizeOptionalChainAddress(p, Ckb, input.nervosAddress);
      var ethereum := NormalizeOptionalChainAddress(p, Evm, input.ethereumAddress);
      if nervos.Err? && (ethereum.Ok? || !ethereumFirst) then Err(nervos.error)
      else if ethereum.Err? then Err(ethereum.error)
      else if nervos.value.original.None? && ethereum.value.original.None? then Err(ContactEmpty)
      else Ok(NormalizedContact(name, p.lower(name), NormalizeOptionalNote(input.note), nervos.value, ethereum.value))
  }

  function CreateContact(n: NormalizedContact, id: Id, now: Instant): Contact {
    Contact(id, n.name, n.normalizedName, n.note, n.nervos.original, n.nervos.normalized,
            n.ethereum.original, n.ethereum.normalized, now, now)
  }

  function UpdateContact(c: Contact, n: NormalizedContact, now: Instant): Contact {
    c.(name := n.name, normalizedName := n.normalizedName, note := n.note,
       nervosAddress := n.nervos.original, normalizedNervosAddress := n.nervos.normalized,
       ethereumAddress := n.ethereum.original, normalizedEthereumAddress := n.ethereum.normalized, updatedAt := now)
  }

  // ------------------------------------------------------------------------------- invariant

  predicate ColumnOk(p: Ports, c: Contact, chain: ChainKind) {
    match c.Address(chain)
    case None => c.NormalizedAddress(chain).None?
    case Some(raw) => c.NormalizedAddress(chain).Some? && NormalizeAddressForChain(p, chain, raw) == Ok(c.NormalizedAddress(chain).value)
  }

  /** The stored normalized fields are those the raw fields normalize to, and there is an
      address. */
  predicate ContactOk(p: Ports, c: Contact) {
    && c.name != "" && Trimmed(c.name)
    && c.normalizedName == p.lower(c.name)
    && ColumnOk(p, c, Ckb)
    && ColumnOk(p, c, Evm)
    && (c.nervosAddress.Some? || c.ethereumAddress.Some?)
  }

  ghost predicate IndexOk(p: Ports, book: Book) {
    && (forall id | id in book :: book[id].contactId == id && ContactOk(p, book[id]))
    && (forall i, j | i in book && j in book && book[i].normalizedName == book[j].normalizedName :: i == j)
  }

  /** An address field that was left out, or that the normalizer takes. */
  predicate Acceptable(normalize: string -> Result<string, BookError>, value: Option<string>) {
    value.Some? ==> Trim(value.value) != "" && normalize(Trim(value.value)).Ok?
  }

  /** What is wrong with an address field. */
  predicate IsFault(normalize: string -> Result<string, BookError>, value: Option<string>, e: BookError,
                    field: string, invalid: BookError) {
    && value.Some?
    && if Trim(value.value) == "" then e == Validation(field)
       else normalize(Trim(value.value)).Err? && e == invalid
  }

  /** Input that has a name and an address, and whose addresses their chains accept. */
  predicate Accepts(p: Ports, input: ContactInput) {
    && Trim(input.name) != ""
    && Acceptable(p.ckb, input.nervosAddress)
    && Acceptable(p.evm, input.ethereumAddress)
    && (input.nervosAddress.Some? || input.ethereumAddress.Some?)
  }

  /** The error refused input meets. With two faulty addresses it may be that of either. */
  predicate Refuses(p: Ports, input: ContactInput, e: BookError) {
    if Trim(input.name) == "" then e == Validation("name")
    else if input.nervosAddress.None? && input.ethereumAddress.None? then e == ContactEmpty
    else
      || IsFault(p.ckb, input.nervosAddress, e, "nervosAddress", InvalidNervosAddress)
      || IsFault(p.evm, input.ethereumAddress, e, "ethereumAddress", InvalidEthereumAddress)
  }

  predicate StoresAddress(normalize: string -> Result<string, BookError>, given: Option<string>,
                          raw: Option<string>, normalized: Option<string>) {
    match given
    case None => raw == None && normalized == None
    case Some(v) =>
      && raw == Some(Trim(v))
      && normalize(Trim(v)).Ok? && normalized == Some(normalize(Trim(v)).value)
  }

  /** What a contact keeps of accepted input. */
  predicate Stores(p: Ports, input: ContactInput, c: Contact) {
    && c.name == Trim(input.name) && c.normalizedName == p.lower(Trim(input.name))
    && c.note == (if input.note.None? || Trim(input.note.value) == "" then None else Some(Trim(input.note.value)))
    && StoresAddress(p.ckb, input.nervosAddress, c.nervosAddress, c.normalizedNervosAddress)
    && StoresAddress(p.evm, input.ethereumAddress, c.ethereumAddress, c.normalizedEthereumAddress)
  }

  /** Exactly which input is accepted, and which error it meets otherwise. */
  lemma AcceptedInput(p: Ports, input: ContactInput, ethereumFirst: bool)
    ensures var r := NormalizeContactInput(p, input, ethereumFirst);
            && (r.Ok? <==> Accepts(p, input))
            && (r.Err? ==> Refuses(p, input, r.error))
            && (r.Ok? ==> r.value.name == Trim(input.name) && r.value.normalizedName == p.lower(Trim(input.name)))
  {
    hide Trim;
  }

  /** What is stored of accepted input: the trimmed name and addresses, each under its chain, and
      of an updated contact its identity and creation time. */
  lemma InputIsStored(p: Ports, input: ContactInput, ethereumFirst: bool, id: Id, now: Instant, c: Contact)
    requires NormalizeContactInput(p, input, ethereumFirst).Ok?
    ensures var created := CreateContact(NormalizeContactInput(p, input, ethereumFirst).value, id, now);
            Stores(p, input, created) && created.contactId == id && created.createdAt == created.updatedAt == now
    ensures var updated := UpdateContact(c, NormalizeContactInput(p, input, ethereumFirst).value, now);
            Stores(p, input, updated) && updated.contactId == c.contactId && updated.createdAt == c.createdAt && updated.updatedAt == now
  {
    hide Trim;
  }

  lemma InputIsNormalized(p: Ports, input: ContactInput, ethereumFirst: bool, id: Id, now: Instant, c: Contact)
    requires NormalizeContactInput(p, input, ethereumFirst).Ok?
    ensures ContactOk(p, CreateContact(NormalizeContactInput(p, input, ethereumFirst).value, id, now))
    ensures ContactOk(p, UpdateContact(c, NormalizeContactInput(p, input, ethereumFirst).value, now))
  {
    hide Trim, Trimmed;
  }

  // ---------------------------------------------------------------------------------- writes

  /** Someone else has the case-folded name: the unique index refuses the row. */
  ghost predicate NameTaken(book: Book, normalizedName: string, except: Option<Id>) {
    exists id :: id in book && book[id].normalizedName == normalizedName && except != Some(id)
  }

  datatype Write = Save(contact: Contact) | Delete(id: Id)

  /** One transaction on the table. A refused save changes nothing. */
  ghost function Written(book: Book, w: Write): Book {
    match w
    case Save(c) => if NameTaken(book, c.normalizedName, Some(c.contactId)) then book else book[c.contactId := c]
    case Delete(id) => book - {id}
  }

  ghost function AllWritten(book: Book, writes: seq<Write>): Book
    decreases |writes|
  {
    if writes == [] then book else AllWritten(Written(book, writes[0]), writes[1..])
  }

  lemma WriteKeepsIndex(p: Ports, book: Book, w: Write)
    requires IndexOk(p, book) && (w.Save? ==> ContactOk(p, w.contact))
    ensures IndexOk(p, Written(book, w))
  {
    hide ContactOk;
  }

  /** Calls check first and write later, so checks and writes of several calls may interleave,
      and an update may write over a contact that has since been renamed or deleted. Since each
      call writes what normalization made, the index survives every order of writes. */
  lemma {:induction false} AnyWritesKeepIndex(p: Ports, book: Book, writes: seq<Write>)
    requires IndexOk(p, book)
    requires forall w | w in writes && w.Save? :: ContactOk(p, w.contact)
    ensures IndexOk(p, AllWritten(book, writes))
    decreases |writes|
  {
    if writes != [] {
      WriteKeepsIndex(p, book, writes[0]);
      hide IndexOk, ContactOk, Written;
      AnyWritesKeepIndex(p, Written(book, writes[0]), writes[1..]);
    }
  }

  // --------------------------------------------------------------------------------- lookups

  datatype Detected = Detected(chain: ChainKind, normalizedAddress: string)

  function Candidates(address: string): seq<ChainKind> {
    if "0x" <= address then [Evm, Ckb] else [Ckb, Evm]
  }

  function DetectAmong(p: Ports, address: string, candidates: seq<ChainKind>): Option<Detected> {
    if candidates == [] then None
    else
      match NormalizeAddressForChain(p, candidates[0], address)
      case Ok(normalized) => Some(Detected(candidates[0], normalized))
      case Err(_) => DetectAmong(p, address, candidates[1..])
  }

  /** The first candidate chain that accepts the address. */
  function Detect(p: Ports, address: string): Option<Detected> {
    DetectAmong(p, address, Candidates(address))
  }

  datatype Lookup = Lookup(address: string, chain: Option<ChainKind>, matched: bool, names: set<string>)

  /** The names under a normalized address, by the stored column. */
  function Indexed(book: Book, d: Detected): set<string> {
    set id | id in book && book[id].NormalizedAddress(d.chain) == Some(d.normalizedAddress) :: book[id].name
  }

  /** The names under a normalized address, by normalizing every stored address. */
  function Scanned(p: Ports, book: Book, d: Detected): set<string> {
    set id | id in book && book[id].Address(d.chain).Some?
             && NormalizeAddressForChain(p, d.chain, book[id].Address(d.chain).value) == Ok(d.normalizedAddress) :: book[id].name
  }

  function LookedUp(p: Ports, book: Book, address: string): Result<Lookup, BookError> {
    match NormalizeRequiredString(address, "address")
    case Err(e) => Err(e)
    case Ok(trimmed) =>
      match Detect(p, trimmed)
      case None => Ok(Lookup(trimmed, None, false, {}))
      case Some(d) => Ok(Lookup(trimmed, Some(d.chain), Indexed(book, d) != {}, Indexed(book, d)))
  }

  ghost function ByName(book: Book, name: string): Option<Contact> {
    if exists id :: id in book && book[id].name == name then
      var id :| id in book && book[id].name == name;
      Some(book[id])
    else None
  }

  datatype Resolved = Resolved(inputValue: string, resolvedAddress: string, contactName: Option<string>)

  ghost function ResolvedTarget(p: Ports, book: Book, chain: ChainKind, to: string, byName: bool): Result<Resolved, BookError> {
    match NormalizeRequiredString(to, "to")
    case Err(e) => Err(e)
    case Ok(target) =>
      if !byName then
        match NormalizeAddressForChain(p, chain, target)
        case Err(e) => Err(e)
        case Ok(a) => Ok(Resolved(target, a, None))
      else
        match ByName(book, target)
        case None => Err(ContactNotFound(target))
        case Some(c) =>
          match c.Address(chain)
          case None => Err(AddressNotFoundForChain(c.name, chain))
          case Some(raw) =>
            match NormalizeAddressForChain(p, chain, raw)
            case Err(e) => Err(e)
            case Ok(a) => Ok(Resolved(target, a, Some(c.name)))
  }

  /** The stored column finds exactly the contacts a scan that normalizes and compares would. */
  lemma LookupIsFullScan(p: Ports, book: Book, d: Detected)
    requires IndexOk(p, book)
    ensures Indexed(book, d) == Scanned(p, book, d)
  {
    forall id | id in book
      ensures book[id].NormalizedAddress(d.chain) == Some(d.normalizedAddress) <==>
              (book[id].Address(d.chain).Some?
               && NormalizeAddressForChain(p, d.chain, book[id].Address(d.chain).value) == Ok(d.normalizedAddress))
    {
      assert ContactOk(p, book[id]) && ColumnOk(p, book[id], d.chain);
    }
  }

  lemma ByNameFinds(p: Ports, book: Book, id: Id)
    requires IndexOk(p, book) && id in book
    ensures ByName(book, book[id].name) == Some(book[id])
  {
    forall other | other in book && book[other].name == book[id].name
      ensures other == id
    {
      assert ContactOk(p, book[other]) && ContactOk(p, book[id]);
    }
  }

  /** A contact's name resolves to its stored normalized address, on every chain it has one. */
  lemma NameResolves(p: Ports, book: Book, id: Id, chain: ChainKind)
    requires IndexOk(p, book) && id in book
    ensures var c := book[id];
            ResolvedTarget(p, book, chain, c.name, true) ==
            match c.NormalizedAddress(chain)
            case None => Err(AddressNotFoundForChain(c.name, chain))
            case Some(a) => Ok(Resolved(c.name, a, Some(c.name)))
  {
    ByNameFinds(p, book, id);
    assert ContactOk(p, book[id]) && ColumnOk(p, book[id], chain);
    hide ByName, IndexOk, Trim;
  }

  /** Whatever names a lookup returns, each resolves, on the chain found, to the address found. */
  lemma LookupThenResolve(p: Ports, book: Book, address: string, name: string)
    requires IndexOk(p, book)
    requires LookedUp(p, book, address).Ok? && name in LookedUp(p, book, address).value.names
    ensures var d := Detect(p, Trim(address));
            d.Some? && ResolvedTarget(p, book, d.value.chain, name, true) == Ok(Resolved(name, d.value.normalizedAddress, Some(name)))
  {
    var d := Detect(p, Trim(address)).value;
    var id :| id in book && book[id].NormalizedAddress(d.chain) == Some(d.normalizedAddress) && book[id].name == name;
    NameResolves(p, book, id, d.chain);
  }

  /** Looking up the address a name resolves to returns that name exactly when the resolved text
      is detected as an address the contact has. */
  lemma ResolveThenLookup(p: Ports, book: Book, id: Id, chain: ChainKind)
    requires IndexOk(p, book) && id in book && book[id].Address(chain).Some?
    ensures var c := book[id];
            var resolved := ResolvedTarget(p, book, chain, c.name, true);
            && resolved.Ok?
            && var text := Trim(resolved.value.resolvedAddress);
               var found := LookedUp(p, book, resolved.value.resolvedAddress);
               found.Ok? && c.name in found.value.names <==>
               text != "" && Detect(p, text).Some?
               && c.NormalizedAddress(Detect(p, text).value.chain) == Some(Detect(p, text).value.normalizedAddress)
  {
    var c := book[id];
    NameResolves(p, book, id, chain);
    assert ContactOk(p, c) && ColumnOk(p, c, chain);
    var text := Trim(c.NormalizedAddress(chain).value);
    if Detect(p, text).Some? && c.name in Indexed(book, Detect(p, text).value) {
      var d := Detect(p, text).value;
      var other :| other in book && book[other].NormalizedAddress(d.chain) == Some(d.normalizedAddress) && book[other].name == c.name;
      ByNameFinds(p, book, id);
      ByNameFinds(p, book, other);
    }
    hide ByName, IndexOk, Detect;
  }

  ghost predicate Idempotent(p: Ports) {
    forall chain, a: string :: var n := NormalizeAddressForChain(p, chain, a);
      n.Ok? ==> n.value != "" && Trimmed(n.value) && NormalizeAddressForChain(p, chain, n.value) == n
  }

  ghost predicate Disjoint(p: Ports) {
    forall a: string :: NormalizeAddressForChain(p, Ckb, a).Err? || NormalizeAddressForChain(p, Evm, a).Err?
  }

  lemma DetectsNormalized(p: Ports, chain: ChainKind, a: string)
    requires Disjoint(p) && NormalizeAddressForChain(p, chain, a).Ok?
    ensures Detect(p, a) == Some(Detected(chain, NormalizeAddressForChain(p, chain, a).value))
  {
    var candidates := Candidates(a);
    assert NormalizeAddressForChain(p, Ckb, a).Err? || NormalizeAddressForChain(p, Evm, a).Err?;
    if candidates[0] != chain {
      assert candidates[1..] == [chain];
      assert DetectAmong(p, a, [chain]) == Some(Detected(chain, NormalizeAddressForChain(p, chain, a).value));
    }
  }

  /** With normalizers that are idempotent and never both accept an address, name and address
      agree: what a name resolves to looks up to that name. */
  lemma NameAndAddressAgree(p: Ports, book: Book, id: Id, chain: ChainKind)
    requires Idempotent(p) && Disjoint(p)
    requires IndexOk(p, book) && id in book && book[id].Address(chain).Some?
    ensures var resolved := ResolvedTarget(p, book, chain, book[id].name, true);
            && resolved.Ok?
            && var found := LookedUp(p, book, resolved.value.resolvedAddress);
               found.Ok? && found.value.chain == Some(chain) && book[id].name in found.value.names
  {
    NameResolves(p, book, id, chain);
    assert ContactOk(p, book[id]) && ColumnOk(p, book[id], chain);
    var a := book[id].NormalizedAddress(chain).value;
    assert NormalizeAddressForChain(p, chain, book[id].Address(chain).value) == Ok(a);
    DetectsNormalized(p, chain, a);
    assert NormalizeAddressForChain(p, chain, a) == Ok(a) && a != "" && Trim(a) == a;
    assert Detect(p, a) == Some(Detected(chain, a));
    hide ByName, IndexOk, Detect, ResolvedTarget, Trim;
    assert LookedUp(p, book, a) == Ok(Lookup(a, Some(chain), Indexed(book, Detected(chain, a)) != {}, Indexed(book, Detected(chain, a))));
    assert book[id].name in Indexed(book, Detected(chain, a));
  }

  // --------------------------------------------------------------------------------- service

  datatype BookAudit = BookAudit(actorRole: ActorRole, action: string, name: string)

  class AddressBookService {
    const ports: Ports
    var contacts: Book
    var audits: seq<BookAudit>

    ghost predicate Valid()
      reads this
    {
      IndexOk(ports, contacts)
    }

    constructor (ports: Ports)
      ensures Valid() && this.ports == ports && contacts == map[] && audits == []
    {
      this.ports := ports;
      contacts, audits := map[], [];
    }

    method GetByName(name: string) returns (r: Option<Contact>)
      requires Valid()
      ensures r == ByName(contacts, name)
    {
      r := None;
      var ids := contacts.Keys;
      while ids != {}
        invariant ids <= contacts.Keys
        invariant forall id | id in contacts.Keys - ids :: contacts[id].name != name
        decreases |ids|
      {
        var id :| id in ids;
        if contacts[id].name == name {
          ByNameFinds(ports, contacts, id);
          return Some(contacts[id]);
        }
        ids := ids - {id};
      }
    }

    method GetByNormalizedName(normalizedName: string) returns (r: Option<Contact>)
      requires Valid()
      ensures r.Some? <==> NameTaken(contacts, normalizedName, None)
      ensures r.Some? ==> r.value.contactId in contacts && contacts[r.value.contactId] == r.value
                          && r.value.normalizedName == normalizedName
    {
      r := None;
      var ids := contacts.Keys;
      while ids != {}
        invariant ids <= contacts.Keys
        invariant forall id | id in contacts.Keys - ids :: contacts[id].normalizedName != normalizedName
        decreases |ids|
      {
        var id :| id in ids;
        if contacts[id].normalizedName == normalizedName {
          return Some(contacts[id]);
        }
        ids := ids - {id};
      }
    }

    /** The names of the rows whose stored column holds the normalized address, which are those
        whose raw address normalizes to it. */
    method ListByNormalizedAddress(chain: ChainKind, normalizedAddress: string) returns (names: set<string>)
      requires Valid()
      ensures names == Scanned(ports, contacts, Detected(chain, normalizedAddress))
    {
      ghost var d := Detected(chain, normalizedAddress);
      LookupIsFullScan(ports, contacts, d);
      hide Scanned, IndexOk;
      names := {};
      var ids := contacts.Keys;
      while ids != {}
        invariant ids <= contacts.Keys
        invariant names == Indexed(ReadRows(contacts, ids), d)
        decreases |ids|
      {
        var id :| id in ids;
        IndexedRow(contacts, ids, id, d);
        hide Indexed, ReadRows;
        if contacts[id].NormalizedAddress(chain) == Some(normalizedAddress) {
          names := names + {contacts[id].name};
        }
        ids := ids - {id};
      }
      assert ReadRows(contacts, {}) == contacts;
    }

    /** A contact is created exactly when its input normalizes and no one has its case-folded
        name; nothing else is written. */
    method Create(actor: ActorRole, input: ContactInput, ethereumFirst: bool, id: Id, now: Instant)
      returns (result: Result<Contact, BookError>)
      requires Valid() && id !in contacts
      modifies this
      ensures Valid()
      ensures result.Ok? <==> Accepts(ports, input) && !NameTaken(old(contacts), ports.lower(Trim(input.name)), None)
      ensures result.Err? ==>
        if Accepts(ports, input) then result.error == AlreadyExists(Trim(input.name)) else Refuses(ports, input, result.error)
      ensures result.Ok? ==>
        && Stores(ports, input, result.value)
        && result.value.contactId == id && result.value.createdAt == result.value.updatedAt == now
      ensures contacts == if result.Ok? then old(contacts)[id := result.value] else old(contacts)
      ensures audits == if result.Ok? then old(audits) + [BookAudit(actor, "address_book.create", result.value.name)] else old(audits)
    {
      hide ContactOk, NormalizeContactInput, Accepts, Refuses, Stores;
      AcceptedInput(ports, input, ethereumFirst);
      var normalized := NormalizeContactInput(ports, input, ethereumFirst);
      if normalized.Err? {
        return Err(normalized.error);
      }
      InputIsStored(ports, input, ethereumFirst, id, now, CreateContact(normalized.value, id, now));
      var existing := GetByNormalizedName(normalized.value.normalizedName);
      if existing.Some? {
        return Err(AlreadyExists(normalized.value.name));
      }
      var contact := CreateContact(normalized.value, id, now);
      InputIsNormalized(ports, input, ethereumFirst, id, now, contact);
      WriteKeepsIndex(ports, contacts, Save(contact));
      contacts := contacts[contact.contactId := contact];
      audits := audits + [BookAudit(actor, "address_book.create", contact.name)];
      result := Ok(contact);
    }

    /** The contact of a name, which may not be blank. */
    method RequireContactByExactName(name: string) returns (result: Result<Contact, BookError>)
      requires Valid()
      ensures result == Exact(contacts, name)
    {
      var exact := NormalizeRequiredString(name, "name");
      if exact.Err? {
        return Err(exact.error);
      }
      var contact := GetByName(exact.value);
      result := match contact case None => Err(ContactNotFound(exact.value)) case Some(c) => Ok(c);
    }

    /** A contact keeps its identity and creation time under any new name no one else has. */
    method Update(actor: ActorRole, currentName: string, input: ContactInput, ethereumFirst: bool, now: Instant)
      returns (result: Result<Contact, BookError>)
      requires Valid()
      modifies this
      ensures Valid()
      ensures Trim(currentName) == "" ==> result == Err(Validation("name"))
      ensures Trim(currentName) != "" && (forall k | k in old(contacts) :: old(contacts)[k].name != Trim(currentName)) ==>
        result == Err(ContactNotFound(Trim(currentName)))
      ensures forall k | k in old(contacts) && old(contacts)[k].name == Trim(currentName) ::
        && (result.Ok? <==> Accepts(ports, input) && !NameTaken(old(contacts), ports.lower(Trim(input.name)), Some(k)))
        && (result.Err? ==>
              if Accepts(ports, input) then result.error == AlreadyExists(Trim(input.name)) else Refuses(ports, input, result.error))
        && (result.Ok? ==>
              && Stores(ports, input, result.value) && result.value.contactId == k
              && result.value.createdAt == old(contacts)[k].createdAt && result.value.updatedAt == now)
      ensures result.Ok? ==> result.value.contactId in old(contacts)
      ensures contacts == if result.Ok? then old(contacts)[result.value.contactId := result.value] else old(contacts)
      ensures audits == if result.Ok? then old(audits) + [BookAudit(actor, "address_book.update", result.value.name)] else old(audits)
    {
      hide ContactOk, NormalizeContactInput, Accepts, Refuses, Stores, Exact;
      AcceptedInput(ports, input, ethereumFirst);
      ExactInWords(ports, contacts, currentName);
      var current := RequireContactByExactName(currentName);
      if current.Err? {
        return Err(current.error);
      }
      FoundIsStored(ports, contacts, currentName);
      var normalized := NormalizeContactInput(ports, input, ethereumFirst);
      if normalized.Err? {
        return Err(normalized.error);
      }
      InputIsStored(ports, input, ethereumFirst, "", now, current.value);
      var conflicting := GetByNormalizedName(normalized.value.normalizedName);
      TakenByOther(ports, contacts, normalized.value.normalizedName, conflicting, current.value.contactId);
      if conflicting.Some? && conflicting.value.contactId != current.value.contactId {
        return Err(AlreadyExists(normalized.value.name));
      }
      var contact := UpdateContact(current.value, normalized.value, now);
      InputIsNormalized(ports, input, ethereumFirst, "", now, current.value);
      WriteKeepsIndex(ports, contacts, Save(contact));
      contacts := contacts[contact.contactId := contact];
      audits := audits + [BookAudit(actor, "address_book.update", contact.name)];
      result := Ok(contact);
    }

    /** The contact of the name is gone, and only it. */
    method DeleteContact(actor: ActorRole, name: string) returns (result: Result<string, BookError>)
      requires Valid()
      modifies this
      ensures Valid()
      ensures Trim(name) == "" ==> result == Err(Validation("name"))
      ensures Trim(name) != "" && (forall k | k in old(contacts) :: old(contacts)[k].name != Trim(name)) ==>
        result == Err(ContactNotFound(Trim(name)))
      ensures result.Err? ==> contacts == old(contacts) && audits == old(audits)
      ensures forall k | k in old(contacts) && old(contacts)[k].name == Trim(name) ::
        && result == Ok(Trim(name))
        && contacts == old(contacts) - {k}
        && audits == old(audits) + [BookAudit(actor, "address_book.delete", Trim(name))]
    {
      hide ContactOk, Exact;
      ExactInWords(ports, contacts, name);
      var contact := RequireContactByExactName(name);
      if contact.Err? {
        return Err(contact.error);
      }
      FoundIsStored(ports, contacts, name);
      WriteKeepsIndex(ports, contacts, Delete(contact.value.contactId));
      contacts := contacts - {contact.value.contactId};
      audits := audits + [BookAudit(actor, "address_book.delete", contact.value.name)];
      result := Ok(contact.value.name);
    }

    method DetectLookupAddress(address: string) returns (r: Option<Detected>)
      ensures r == Detect(ports, address)
      ensures var ckb, evm := ports.ckb(address), ports.evm(address);
              r == if evm.Ok? && ("0x" <= address || ckb.Err?) then Some(Detected(Evm, evm.value))
                   else if ckb.Ok? then Some(Detected(Ckb, ckb.value)) else None
    {
      DetectInWords(ports, address);
      var candidates := Candidates(address);
      for i := 0 to |candidates|
        invariant DetectAmong(ports, address, candidates) == DetectAmong(ports, address, candidates[i..])
      {
        var normalized := NormalizeAddressForChain(ports, candidates[i], address);
        if normalized.Ok? {
          return Some(Detected(candidates[i], normalized.value));
        }
        assert candidates[i..][1..] == candidates[i + 1..];
      }
      r := None;
    }

    /** The names of exactly the contacts that hold the address, as a scan normalizing every
        stored address would find them. */
    method LookupByAddress(address: string) returns (result: Result<Lookup, BookError>)
      requires Valid()
      ensures result == LookedUp(ports, contacts, address)
      ensures var text := Trim(address);
              var ckb, evm := ports.ckb(text), ports.evm(text);
              if text == "" then result == Err(Validation("address"))
              else if evm.Ok? && ("0x" <= text || ckb.Err?) then
                var names := set id | id in contacts && contacts[id].ethereumAddress.Some?
                                      && ports.evm(contacts[id].ethereumAddress.value) == evm :: contacts[id].name;
                result == Ok(Lookup(text, Some(Evm), names != {}, names))
              else if ckb.Ok? then
                var names := set id | id in contacts && contacts[id].nervosAddress.Some?
                                      && ports.ckb(contacts[id].nervosAddress.value) == ckb :: contacts[id].name;
                result == Ok(Lookup(text, Some(Ckb), names != {}, names))
              else result == Ok(Lookup(text, None, false, {}))
    {
      var trimmed := NormalizeRequiredString(address, "address");
      if trimmed.Err? {
        return Err(trimmed.error);
      }
      var detected := DetectLookupAddress(trimmed.value);
      if detected.None? {
        return Ok(Lookup(trimmed.value, None, false, {}));
      }
      LookupIsFullScan(ports, contacts, detected.value);
      ScannedInWords(ports, contacts, detected.value);
      hide Indexed, Scanned, IndexOk;
      var names := ListByNormalizedAddress(detected.value.chain, detected.value.normalizedAddress);
      result := Ok(Lookup(trimmed.value, Some(detected.value.chain), names != {}, names));
    }

    /** `TransferTargetResolverService.resolve` on this repository. */
    method Resolve(chain: ChainKind, to: string, byName: bool) returns (result: Result<Resolved, BookError>)
      requires Valid()
      ensures result == ResolvedTarget(ports, contacts, chain, to, byName)
      ensures Trim(to) == "" ==> result == Err(Validation("to"))
      ensures Trim(to) != "" && !byName ==>
        match (if chain == Ckb then ports.ckb(Trim(to)) else ports.evm(Trim(to)))
        case Ok(address) => result == Ok(Resolved(inputValue := Trim(to), resolvedAddress := address, contactName := None))
        case Err(e) => result == Err(e)
      ensures Trim(to) != "" && byName && (forall id | id in contacts :: contacts[id].name != Trim(to)) ==>
        result == Err(ContactNotFound(Trim(to)))
      ensures forall id | id in contacts && contacts[id].name == Trim(to) && byName ::
        match (if chain == Ckb then contacts[id].normalizedNervosAddress else contacts[id].normalizedEthereumAddress)
        case Some(address) =>
          result == Ok(Resolved(inputValue := Trim(to), resolvedAddress := address, contactName := Some(Trim(to))))
        case None => result == Err(AddressNotFoundForChain(Trim(to), chain))
    {
      forall id | id in contacts && contacts[id].name == Trim(to) && byName
        ensures Trim(to) != "" && ResolvedTarget(ports, contacts, chain, to, true) == ResolvedTarget(ports, contacts, chain, contacts[id].name, true)
      {
        NameIsTrimmed(ports, contacts, id);
        NameResolves(ports, contacts, id, chain);
      }
      hide ByName, IndexOk, Trim;
      var target := NormalizeRequiredString(to, "to");
      if target.Err? {
        return Err(target.error);
      }
      if !byName {
        var a := NormalizeAddressForChain(ports, chain, target.value);
        return match a case Err(e) => Err(e) case Ok(v) => Ok(Resolved(target.value, v, None));
      }
      var contact := GetByName(target.value);
      if contact.None? {
        return Err(ContactNotFound(target.value));
      }
      var chainAddress := contact.value.Address(chain);
      if chainAddress.None? {
        return Err(AddressNotFoundForChain(contact.value.name, chain));
      }
      var a := NormalizeAddressForChain(ports, chain, chainAddress.value);
      result := match a case Err(e) => Err(e) case Ok(v) => Ok(Resolved(target.value, v, Some(contact.value.name)));
    }
  }

  /** The rows already read. */
  function ReadRows(book: Book, left: set<Id>): Book {
    map id | id in book && id !in left :: book[id]
  }

  /** Reading one more row adds its name if its column holds the address. */
  lemma IndexedRow(book: Book, left: set<Id>, id: Id, d: Detected)
    requires id in left && left <= book.Keys
    ensures Indexed(ReadRows(book, left - {id}), d)
         == Indexed(ReadRows(book, left), d) + if book[id].NormalizedAddress(d.chain) == Some(d.normalizedAddress) then {book[id].name} else {}
  {
    var less, more := ReadRows(book, left), ReadRows(book, left - {id});
    forall name | name in Indexed(less, d) ensures name in Indexed(more, d) {
      var k :| k in less && less[k].NormalizedAddress(d.chain) == Some(d.normalizedAddress) && less[k].name == name;
      assert k in more && more[k] == less[k];
    }
    forall name | name in Indexed(more, d)
      ensures name in Indexed(less, d) || (name == book[id].name && book[id].NormalizedAddress(d.chain) == Some(d.normalizedAddress))
    {
      var k :| k in more && more[k].NormalizedAddress(d.chain) == Some(d.normalizedAddress) && more[k].name == name;
      assert k == id || (k in less && less[k] == more[k]);
    }
    assert id in more && more[id] == book[id];
  }

  /** What asking for the contact of a name comes to. */
  lemma ExactInWords(p: Ports, book: Book, name: string)
    requires IndexOk(p, book)
    ensures Trim(name) == "" ==> Exact(book, name) == Err(Validation("name"))
    ensures Trim(name) != "" && (forall id | id in book :: book[id].name != Trim(name)) ==>
              Exact(book, name) == Err(ContactNotFound(Trim(name)))
    ensures forall id | id in book && book[id].name == Trim(name) ::
              Trim(name) != "" && Exact(book, name) == Ok(book[id]) && book[id].contactId == id
  {
    forall id | id in book && book[id].name == Trim(name)
      ensures Trim(name) != "" && Exact(book, name) == Ok(book[id]) && book[id].contactId == id
    {
      NameIsTrimmed(p, book, id);
      ByNameFinds(p, book, id);
    }
    hide Trim, IndexOk;
  }

  lemma ScannedInWords(p: Ports, book: Book, d: Detected)
    ensures var evm := set id | id in book && book[id].ethereumAddress.Some?
                                && p.evm(book[id].ethereumAddress.value) == Ok(d.normalizedAddress) :: book[id].name;
            var ckb := set id | id in book && book[id].nervosAddress.Some?
                                && p.ckb(book[id].nervosAddress.value) == Ok(d.normalizedAddress) :: book[id].name;
            Scanned(p, book, d) == if d.chain == Evm then evm else ckb
  {
  }

  lemma DetectInWords(p: Ports, address: string)
    ensures var ckb, evm := p.ckb(address), p.evm(address);
            Detect(p, address) == if evm.Ok? && ("0x" <= address || ckb.Err?) then Some(Detected(Evm, evm.value))
                                  else if ckb.Ok? then Some(Detected(Ckb, ckb.value)) else None
  {
    var candidates := Candidates(address);
    var last := candidates[1];
    assert candidates[1..] == [last];
    assert DetectAmong(p, address, [last]) == match NormalizeAddressForChain(p, last, address)
                                              case Ok(normalized) => Some(Detected(last, normalized))
                                              case Err(_) => None;
  }

  lemma NameIsTrimmed(p: Ports, book: Book, id: Id)
    requires IndexOk(p, book) && id in book
    ensures book[id].name != "" && Trim(book[id].name) == book[id].name
  {
    assert ContactOk(p, book[id]);
    hide Trim;
  }

  ghost function Exact(book: Book, name: string): Result<Contact, BookError> {
    match NormalizeRequiredString(name, "name")
    case Err(e) => Err(e)
    case Ok(exact) => match ByName(book, exact) case None => Err(ContactNotFound(exact)) case Some(c) => Ok(c)
  }

  lemma FoundIsStored(p: Ports, book: Book, name: string)
    requires IndexOk(p, book) && Exact(book, name).Ok?
    ensures var c := Exact(book, name).value; c.contactId in book && book[c.contactId] == c
  {
    hide ContactOk;
  }

  /** Names are unique, so the one contact of a name tells whether someone else has it. */
  lemma TakenByOther(p: Ports, book: Book, normalizedName: string, found: Option<Contact>, id: Id)
    requires IndexOk(p, book)
    requires found.Some? <==> NameTaken(book, normalizedName, None)
    requires found.Some? ==> found.value.contactId in book && book[found.value.contactId] == found.value
                             && found.value.normalizedName == normalizedName
    ensures NameTaken(book, normalizedName, Some(id)) <==> found.Some? && found.value.contactId != id
  {
    hide ContactOk;
    if NameTaken(book, normalizedName, Some(id)) {
      var other :| other in book && book[other].normalizedName == normalizedName && other != id;
    }
  }
}
