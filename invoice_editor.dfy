/** The invoice editor's document state (src/components/portal/InvoiceView.tsx):
    `initData`, `updateField`, `setDocType` and the item handlers.

    The document is a JavaScript object.  Its top level is a `Document`
    whose `fields` map holds text, numbers and nested objects (`from`,
    `client`, `bank`, `design`, `logo`, `sig`); each nested object is a
    `Section` object of its own.  `updateField` copies the top level
    (`{ ...prev }`) but not the nested objects, walks the dotted path with a
    loop, and assigns at its end: a top-level key changes the copy only,
    while a nested key changes the `Section` that the previous document
    shares with the new one.  A thrown error (reading through `undefined`,
    assigning into a text or number, the `RangeError` of `calcDue`) is
    `ok == false` with nothing changed. */
module InvoiceEditor {
  import opened Wrappers
  import opened Text
  import opened Dates
  import opened InvoiceIds
  import opened InvoiceItems
  import InvoiceWords

  /** A value that is not an object. */
  datatype Leaf = Text(text: string) | Number(number: real)

  /** A top-level value: a leaf or a nested object. */
  datatype Value = Plain(leaf: Leaf) | Object(section: Section)

  /** A nested object of the document. */
  class Section {
    var fields: map<string, Leaf>

    constructor(fields: map<string, Leaf>)
      ensures this.fields == fields
    {
      this.fields := fields;
    }
  }

  /** A top-level property name: the twelve names `initData` sets, and any
      other name as itself. */
  datatype Key =
    | TypeKey | DocIdKey | DateKey | DueDateKey | FromKey | ClientKey
    | TaxRateKey | NotesKey | BankKey | DesignKey | LogoKey | SigKey
    | OtherKey(name: string)

  /** The property name a key stands for. */
  function NameOf(k: Key): string
  {
    match k
    case TypeKey => "type"
    case DocIdKey => "docId"
    case DateKey => "date"
    case DueDateKey => "dueDate"
    case FromKey => "from"
    case ClientKey => "client"
    case TaxRateKey => "taxRate"
    case NotesKey => "notes"
    case BankKey => "bank"
    case DesignKey => "design"
    case LogoKey => "logo"
    case SigKey => "sig"
    case OtherKey(name) => name
  }

  /** The key a property name denotes. */
  function KeyOf(name: string): (k: Key)
    ensures NameOf(k) == name
    ensures k.OtherKey? ==> forall j: Key :: !j.OtherKey? ==> NameOf(j) != name
  {
    if name == "type" then TypeKey
    else if name == "docId" then DocIdKey
    else if name == "date" then DateKey
    else if name == "dueDate" then DueDateKey
    else if name == "from" then FromKey
    else if name == "client" then ClientKey
    else if name == "taxRate" then TaxRateKey
    else if name == "notes" then NotesKey
    else if name == "bank" then BankKey
    else if name == "design" then DesignKey
    else if name == "logo" then LogoKey
    else if name == "sig" then SigKey
    else OtherKey(name)
  }

  /** Two names denote the same key exactly when they are the same name. */
  lemma KeyOfInjective(a: string, b: string)
    ensures KeyOf(a) == KeyOf(b) <==> a == b
  {
    if KeyOf(a) == KeyOf(b) {
      assert a == NameOf(KeyOf(a)) == NameOf(KeyOf(b)) == b;
    }
  }

  /** The top level of the document; the item list is kept beside the
      other fields. */
  class Document {
    const fields: map<Key, Value>
    const items: seq<Item>

    constructor(fields: map<Key, Value>, items: seq<Item>)
      ensures this.fields == fields && this.items == items
    {
      this.fields := fields;
      this.items := items;
    }
  }

  /** The nested objects a document's top level refers to. */
  function SectionsOf(fields: map<Key, Value>): set<Section>
  {
    set k | k in fields && fields[k].Object? :: fields[k].section
  }

  predicate TextAt(fields: map<Key, Value>, key: Key)
  {
    key in fields && fields[key].Plain? && fields[key].leaf.Text?
  }

  function TextOf(fields: map<Key, Value>, key: Key): string
    requires TextAt(fields, key)
  {
    fields[key].leaf.text
  }

  /** The fields the numbering and the totals read hold values of their
      declared kinds. */
  predicate WellFormed(fields: map<Key, Value>)
  {
    TextAt(fields, TypeKey) && TextAt(fields, DocIdKey) && TextAt(fields, DateKey)
    && TaxRateKey in fields && fields[TaxRateKey].Plain? && fields[TaxRateKey].leaf.Number?
  }

  /** What the declared kinds of those fields ask of a value written at a
      top-level key. */
  predicate KindFits(key: Key, value: Leaf)
  {
    (key == TypeKey || key == DocIdKey || key == DateKey ==> value.Text?)
    && (key == TaxRateKey ==> value.Number?)
  }

  /** The keys of the path before the last one, and the last one. */
  function KeyPath(path: string): seq<string>
  {
    var parts := Split(path, '.');
    parts[..|parts| - 1]
  }

  function LastKey(path: string): string
  {
    var parts := Split(path, '.');
    parts[|parts| - 1]
  }

  /** Where the walk of `updateField` stands: at the copied top level, at a
      nested object, at a leaf, at `undefined`, or past a thrown
      `TypeError`. */
  datatype Cursor = AtRoot | AtSection(section: Section) | AtLeaf | Undefined | Thrown

  /** One step `current = current[k]` of the walk. */
  function Step(fields: map<Key, Value>, current: Cursor, k: string): Cursor
    reads if current.AtSection? then {current.section} else {}
  {
    match current
    case AtRoot =>
      var key := KeyOf(k);
      if key in fields then (if fields[key].Object? then AtSection(fields[key].section) else AtLeaf) else Undefined
    case AtSection(s) => if k in s.fields then AtLeaf else Undefined
    case AtLeaf => Undefined
    case Undefined => Thrown
    case Thrown => Thrown
  }

  /** `current` after `current = current[k]` for each key `k` of `keys`;
      a property of a text or a number reads as `undefined`. */
  function Walk(fields: map<Key, Value>, keys: seq<string>): (c: Cursor)
    reads SectionsOf(fields)
    ensures c.AtSection? ==> c.section in SectionsOf(fields)
    ensures c.AtRoot? <==> keys == []
    decreases |keys|
  {
    if keys == [] then AtRoot
    else
      var prev := Walk(fields, keys[..|keys| - 1]);
      Step(fields, prev, keys[|keys| - 1])
  }

  /** Only the first key can lead into a nested object: a path of three or
      more keys never reaches one, so assigning at its end throws. */
  lemma DeepPathsFail(fields: map<Key, Value>, keys: seq<string>)
    requires |keys| >= 2
    ensures !Walk(fields, keys).AtRoot? && !Walk(fields, keys).AtSection?
  {
    var init := keys[..|keys| - 1];
    assert init != [];
    assert !Walk(fields, init).AtRoot?;
  }

  /** A path without dots is its own single key. */
  lemma SingleKey(path: string)
    requires KeyPath(path) == []
    ensures LastKey(path) == path
  {
    JoinSplit(path, '.');
  }

  /** The top level with a new date, due date and number, in the order
      `updateField` assigns them. */
  function Redated(fields: map<Key, Value>, date: string, due: string, id: string): (r: map<Key, Value>)
    requires WellFormed(fields)
    ensures WellFormed(r) && r.Keys == fields.Keys + {DueDateKey}
    ensures r[DateKey] == Plain(Text(date)) && r[DueDateKey] == Plain(Text(due)) && r[DocIdKey] == Plain(Text(id))
    ensures forall k :: k in fields && k != DateKey && k != DueDateKey && k != DocIdKey ==> r[k] == fields[k]
  {
    fields[DateKey := Plain(Text(date))][DueDateKey := Plain(Text(due))][DocIdKey := Plain(Text(id))]
  }

  /** The top level after `updateField(key, value)` for a path without
      dots; for `date` the due date and the number follow, and `None` is
      the `RangeError` of `calcDue`. */
  function RootUpdate(fields: map<Key, Value>, key: Key, value: Leaf, draw: int): (r: Option<map<Key, Value>>)
    requires WellFormed(fields) && KindFits(key, value) && 0 <= draw < 9000
    ensures r.Some? ==> WellFormed(r.value)
    ensures key != DateKey ==> r == Some(fields[key := Plain(value)])
    ensures key == DateKey ==> (r.None? <==> ParseIso(value.text).None?)
  {
    if key != DateKey then Some(fields[key := Plain(value)])
    else
      match CalcDue(value.text)
      case None => None
      case Some(due) =>
        var serial := LastSegment(TextOf(fields, DocIdKey), '-');
        Some(Redated(fields, value.text, due, GenerateId(TextOf(fields, TypeKey), value.text, Some(serial), draw)))
  }

  /** The top level after a new date: the date, its due date and the
      regenerated number change, and nothing else. */
  lemma DateUpdate(fields: map<Key, Value>, date: string, draw: int)
    requires WellFormed(fields) && 0 <= draw < 9000 && ParseIso(date).Some?
    ensures RootUpdate(fields, DateKey, Text(date), draw).Some?
    ensures var f := RootUpdate(fields, DateKey, Text(date), draw).value;
            f.Keys == fields.Keys + {DueDateKey}
            && f[DateKey] == Plain(Text(date))
            && f[DueDateKey] == Plain(Text(CalcDue(date).value))
            && (forall k :: k in fields && k != DateKey && k != DueDateKey && k != DocIdKey ==> f[k] == fields[k])
            && TextOf(f, DocIdKey)
               == GenerateId(TextOf(fields, TypeKey), date, Some(LastSegment(TextOf(fields, DocIdKey), '-')), draw)
  {
  }

  /** Changing the date keeps the serial of the number (unless it was
      empty) and sets the due date fifteen days later. */
  lemma DateChangeKeepsSerial(fields: map<Key, Value>, date: string, draw: int)
    requires WellFormed(fields) && 0 <= draw < 9000
    requires LastSegment(TextOf(fields, DocIdKey), '-') != ""
    requires ParseIso(date).Some? && AddDays(ParseIso(date).value, 15).year <= 9999
    ensures RootUpdate(fields, DateKey, Text(date), draw).Some?
    ensures var f := RootUpdate(fields, DateKey, Text(date), draw).value;
            LastSegment(TextOf(f, DocIdKey), '-') == LastSegment(TextOf(fields, DocIdKey), '-')
            && TextOf(f, DocIdKey)[..4] == Prefix(TextOf(fields, TypeKey)) + "-"
            && TextAt(f, DueDateKey)
            && ParseIso(TextOf(f, DueDateKey)).Some?
            && DayNumber(ParseIso(TextOf(f, DueDateKey)).value) == DayNumber(ParseIso(date).value) + 15
  {
    DateUpdate(fields, date, draw);
    RegenerateKeepsSerial(TextOf(fields, DocIdKey), TextOf(fields, TypeKey), date, draw);
    DueFifteenDaysLater(date);
  }

  /** Clearing the date input writes `""` at the path `date`: the path has
      no dots, and `calcDue("")` throws because the empty text is no date,
      so the update fails and the editor is torn down. */
  lemma ClearedDateFails(fields: map<Key, Value>, draw: int)
    requires WellFormed(fields) && 0 <= draw < 9000
    ensures KeyPath("date") == [] && KeyOf("date") == DateKey && KindFits(DateKey, Text(""))
    ensures RootUpdate(fields, DateKey, Text(""), draw).None?
  {
    SplitWithoutSeparator("date", '.');
  }

  /** The top-level update as evidently intended: a date that is no date
      is kept as typed, without a new due date or number, instead of
      throwing. */
  function GuardedRootUpdate(fields: map<Key, Value>, key: Key, value: Leaf, draw: int): (r: map<Key, Value>)
    requires WellFormed(fields) && KindFits(key, value) && 0 <= draw < 9000
    ensures WellFormed(r) && key in r && r[key] == Plain(value)
    ensures RootUpdate(fields, key, value, draw).Some? ==> r == RootUpdate(fields, key, value, draw).value
    ensures RootUpdate(fields, key, value, draw).None? ==>
              r.Keys == fields.Keys && forall k :: k in fields && k != key ==> r[k] == fields[k]
  {
    match RootUpdate(fields, key, value, draw)
    case Some(f) => f
    case None => fields[key := Plain(value)]
  }

  /** With the guard, clearing the date empties it and leaves every other
      field, the due date and the number included, as it was. */
  lemma GuardedClearedDate(fields: map<Key, Value>, draw: int)
    requires WellFormed(fields) && 0 <= draw < 9000
    ensures var r := GuardedRootUpdate(fields, DateKey, Text(""), draw);
            r.Keys == fields.Keys && r[DateKey] == Plain(Text(""))
            && forall k :: k in fields && k != DateKey ==> r[k] == fields[k]
  {
    ClearedDateFails(fields, draw);
  }

  /** The top level with a new type and number, as `setDocType` spreads
      them over the previous one. */
  function Retyped(fields: map<Key, Value>, docType: string, id: string): (r: map<Key, Value>)
    requires WellFormed(fields)
    ensures WellFormed(r) && r.Keys == fields.Keys
    ensures r[TypeKey] == Plain(Text(docType)) && r[DocIdKey] == Plain(Text(id))
    ensures forall k :: k in fields && k != TypeKey && k != DocIdKey ==> r[k] == fields[k]
  {
    fields[TypeKey := Plain(Text(docType))][DocIdKey := Plain(Text(id))]
  }

  /** The top level after `setDocType(docType)`. */
  function TypeUpdate(fields: map<Key, Value>, docType: string, draw: int): (r: map<Key, Value>)
    requires WellFormed(fields) && 0 <= draw < 9000
    ensures WellFormed(r) && r.Keys == fields.Keys
    ensures r[TypeKey] == Plain(Text(docType)) && r[DateKey] == fields[DateKey]
    ensures forall k :: k in fields && k != TypeKey && k != DocIdKey ==> r[k] == fields[k]
    ensures TextOf(r, DocIdKey) == GenerateId(docType, TextOf(fields, DateKey), Some(LastSegment(TextOf(fields, DocIdKey), '-')), draw)
    ensures TextOf(r, DocIdKey)[..4] == Prefix(docType) + "-"
    ensures LastSegment(TextOf(fields, DocIdKey), '-') != "" ==>
              LastSegment(TextOf(r, DocIdKey), '-') == LastSegment(TextOf(fields, DocIdKey), '-')
  {
    var serial := LastSegment(TextOf(fields, DocIdKey), '-');
    var id := GenerateId(docType, TextOf(fields, DateKey), Some(serial), draw);
    assert serial != "" ==> LastSegment(id, '-') == serial by {
      if serial != "" {
        RegenerateKeepsSerial(TextOf(fields, DocIdKey), docType, TextOf(fields, DateKey), draw);
      }
    }
    Retyped(fields, docType, id)
  }

  /** Switching the type twice over comes back to the first number, as
      long as the serial is not empty. */
  lemma TypeRoundTrip(fields: map<Key, Value>, other: string, draw: int, draw': int)
    requires WellFormed(fields) && 0 <= draw < 9000 && 0 <= draw' < 9000
    requires ParseIso(TextOf(fields, DateKey)).Some? && ParseIso(TextOf(fields, DateKey)).value.year >= 10
    requires TextOf(fields, DocIdKey) == GenerateId(TextOf(fields, TypeKey), TextOf(fields, DateKey), None, draw)
    ensures var back := TypeUpdate(TypeUpdate(fields, other, draw'), TextOf(fields, TypeKey), draw');
            TextOf(back, DocIdKey) == TextOf(fields, DocIdKey)
  {
    var t, date := TextOf(fields, TypeKey), TextOf(fields, DateKey);
    var f1 := TypeUpdate(fields, other, draw');
    var serial := LastSegment(TextOf(fields, DocIdKey), '-');
    FreshSerial(t, date, None, draw);
    LastSegmentOfJoined(Prefix(t) + "-" + YearMonth(date), ChosenSerial(None, draw), '-');
    assert serial == ChosenSerial(None, draw);
    var s1 := LastSegment(TextOf(f1, DocIdKey), '-');
    assert s1 == serial;
    IdOfValidDate(t, date, Some(s1), draw');
    IdOfValidDate(t, date, None, draw);
  }

  /** The top level `initData` returns, for the given number, dates and
      nested objects. */
  function InitialFields(id: string, date: string, due: string,
                         from: Section, client: Section, bank: Section, design: Section, logo: Section, sig: Section): (r: map<Key, Value>)
    ensures InitialTop(r, id, date, due) && WellFormed(r)
    ensures r[FromKey] == Object(from) && r[ClientKey] == Object(client) && r[BankKey] == Object(bank)
    ensures r[DesignKey] == Object(design) && r[LogoKey] == Object(logo) && r[SigKey] == Object(sig)
  {
    map[
      TypeKey := Plain(Text("INVOICE")),
      DocIdKey := Plain(Text(id)),
      DateKey := Plain(Text(date)),
      DueDateKey := Plain(Text(due)),
      FromKey := Object(from),
      ClientKey := Object(client),
      TaxRateKey := Plain(Number(18.0)),
      NotesKey := Plain(Text(DefaultNotes)),
      BankKey := Object(bank),
      DesignKey := Object(design),
      LogoKey := Object(logo),
      SigKey := Object(sig)]
  }

  /** The top level a new document starts with: the twelve names
      `initData` sets, the type `INVOICE`, the given number and dates, an
      18% tax rate and the standard notes. */
  predicate InitialTop(fields: map<Key, Value>, id: string, date: string, due: string)
  {
    fields.Keys == InitialKeys
    && fields[TypeKey] == Plain(Text("INVOICE")) && fields[DocIdKey] == Plain(Text(id))
    && fields[DateKey] == Plain(Text(date)) && fields[DueDateKey] == Plain(Text(due))
    && fields[TaxRateKey] == Plain(Number(18.0)) && fields[NotesKey] == Plain(Text(DefaultNotes))
  }

  /** The notes of a new document. */
  const DefaultNotes: string := "Payment due within 15 days.\nThank you for your business!"

  /** The twelve names `initData` sets. */
  const InitialKeys: set<Key> := {TypeKey, DocIdKey, DateKey, DueDateKey, FromKey, ClientKey, TaxRateKey, NotesKey, BankKey, DesignKey, LogoKey, SigKey}

  // The nested objects of `initData`.
  const InitialFrom: map<string, Leaf> := map["name" := Text(""), "address" := Text(""), "gst" := Text(""), "pan" := Text("")]
  const InitialClient: map<string, Leaf> := map["info" := Text("")]
  const InitialBank: map<string, Leaf> := map["bankName" := Text(""), "accountNo" := Text(""), "ifsc" := Text(""), "branch" := Text("")]
  const InitialDesign: map<string, Leaf> := map["color" := Text("#2563eb"), "font" := Text("font-modern")]
  /** The logo and the signature start alike. */
  const InitialImage: map<string, Leaf> := map["src" := Text(""), "size" := Number(100.0)]

  /** The editor: the current document. */
  class InvoiceEditor {
    var data: Document

    predicate Valid()
      reads this, data
    {
      WellFormed(data.fields)
    }

    /** `initData()`: `date` is today's date as the clock formats it
        (`toISOString().split('T')[0]`, a readable date by `DueOfFormatted`)
        and `draw` is the random serial draw. */
    constructor(date: string, draw: int)
      requires ParseIso(date).Some? && 0 <= draw < 9000
      ensures WellFormed(data.fields) && fresh(data) && CalcDue(date).Some?
      ensures InitialTop(data.fields, GenerateId("INVOICE", date, None, draw), date, CalcDue(date).value)
      ensures data.items == [NewItem]
      ensures data.fields[FromKey].Object? && fresh(data.fields[FromKey].section) && data.fields[FromKey].section.fields
                == InitialFrom
      ensures data.fields[ClientKey].Object? && fresh(data.fields[ClientKey].section) && data.fields[ClientKey].section.fields == InitialClient
      ensures data.fields[BankKey].Object? && fresh(data.fields[BankKey].section) && data.fields[BankKey].section.fields
                == InitialBank
      ensures data.fields[DesignKey].Object? && fresh(data.fields[DesignKey].section) && data.fields[DesignKey].section.fields
                == InitialDesign
      ensures data.fields[LogoKey].Object? && fresh(data.fields[LogoKey].section) && data.fields[LogoKey].section.fields == InitialImage
      ensures data.fields[SigKey].Object? && fresh(data.fields[SigKey].section) && data.fields[SigKey].section.fields == InitialImage
    {
      var id := GenerateId("INVOICE", date, None, draw);
      var due := CalcDue(date).value;
      var from, client, bank, design, logo, sig := NewSections();
      data := new Document(InitialFields(id, date, due, from, client, bank, design, logo, sig), [NewItem]);
    }

    /** The six nested objects of `initData`, each a new object. */
    static method NewSections() returns (from: Section, client: Section, bank: Section, design: Section, logo: Section, sig: Section)
      ensures fresh(from) && fresh(client) && fresh(bank) && fresh(design) && fresh(logo) && fresh(sig)
      ensures from.fields == InitialFrom && client.fields == InitialClient && bank.fields == InitialBank
      ensures design.fields == InitialDesign && logo.fields == InitialImage && sig.fields == InitialImage
    {
      from := new Section(InitialFrom);
      client := new Section(InitialClient);
      bank := new Section(InitialBank);
      design := new Section(InitialDesign);
      logo := new Section(InitialImage);
      sig := new Section(InitialImage);
    }

    /** The `for` loop of `updateField`: `current = current[parts[i]]`
        for every key before the last; `Thrown` is the `TypeError` of
        reading a property of `undefined`. */
    method Locate(fields: map<Key, Value>, parts: seq<string>) returns (current: Cursor)
      requires |parts| >= 1
      ensures current == Walk(fields, parts[..|parts| - 1])
    {
      current := AtRoot;
      var i := 0;
      while i < |parts| - 1
        invariant 0 <= i <= |parts| - 1
        invariant current == Walk(fields, parts[..i])
      {
        assert parts[..i + 1][..i] == parts[..i];
        var k := parts[i];
        match current {
          case AtRoot =>
            var key := KeyOf(k);
            current := if key in fields then (if fields[key].Object? then AtSection(fields[key].section) else AtLeaf) else Undefined;
          case AtSection(s) =>
            current := if k in s.fields then AtLeaf else Undefined;
          case AtLeaf =>
            current := Undefined;
          case Undefined =>
            current := Thrown;
          case Thrown =>
        }
        i := i + 1;
      }
    }

    /** `updateField(path, value)`; `draw` is the random draw `generateId`
        would use for an empty serial. */
    method UpdateField(path: string, value: Leaf, draw: int) returns (ok: bool)
      requires Valid() && KindFits(KeyOf(path), value) && 0 <= draw < 9000
      modifies this, SectionsOf(data.fields)
      ensures Valid()
      ensures data.items == old(data.items)
      ensures old(Walk(data.fields, KeyPath(path))).AtRoot? ==>
                (ok <==> RootUpdate(old(data.fields), KeyOf(path), value, draw).Some?)
                && (ok ==> fresh(data) && data.fields == RootUpdate(old(data.fields), KeyOf(path), value, draw).value)
      ensures var at := old(Walk(data.fields, KeyPath(path)));
              at.AtSection? ==>
                ok && fresh(data) && data.fields == old(data.fields) && at.section.fields == old(at.section.fields)[LastKey(path) := value]
      ensures !ok ==> data == old(data)
      ensures !old(Walk(data.fields, KeyPath(path))).AtRoot? && !old(Walk(data.fields, KeyPath(path))).AtSection? ==> !ok
      ensures var at := old(Walk(data.fields, KeyPath(path)));
              forall s :: s in old(SectionsOf(data.fields)) && !(at.AtSection? && s == at.section) ==> s.fields == old(s.fields)
    {
      var prev := data;
      var parts := Split(path, '.');
      var current := Locate(prev.fields, parts);
      var last := parts[|parts| - 1];
      match current {
        case AtRoot =>
          SingleKey(path);
          ok := UpdateRoot(KeyOf(path), value, draw);
        case AtSection(s) =>
          s.fields := s.fields[last := value];
          data := new Document(prev.fields, prev.items);
          ok := true;
        case AtLeaf =>
          // TypeError: a property cannot be created on a text or number
          ok := false;
        case Undefined =>
          // TypeError: a property of undefined
          ok := false;
        case Thrown =>
          ok := false;
      }
    }

    /** The assignment of `updateField` for a path without dots, with the
        due date and the number for `date`. */
    method UpdateRoot(key: Key, value: Leaf, draw: int) returns (ok: bool)
      requires Valid() && KindFits(key, value) && 0 <= draw < 9000
      modifies this
      ensures Valid() && data.items == old(data.items)
      ensures ok <==> RootUpdate(old(data.fields), key, value, draw).Some?
      ensures ok ==> fresh(data) && data.fields == RootUpdate(old(data.fields), key, value, draw).value
      ensures !ok ==> data == old(data)
    {
      var prev := data.fields;
      if key == DateKey {
        var due := CalcDue(value.text);
        if due.None? {
          // RangeError: Invalid time value
          return false;
        }
        var serial := LastSegment(TextOf(prev, DocIdKey), '-');
        var id := GenerateId(TextOf(prev, TypeKey), value.text, Some(serial), draw);
        data := new Document(Redated(prev, value.text, due.value, id), data.items);
      } else {
        data := new Document(prev[key := Plain(value)], data.items);
      }
      ok := true;
    }

    /** `setDocType(docType)`. */
    method SetDocType(docType: string, draw: int)
      requires Valid() && 0 <= draw < 9000
      modifies this
      ensures WellFormed(data.fields) && fresh(data)
      ensures data.fields == TypeUpdate(old(data.fields), docType, draw) && data.items == old(data.items)
    {
      data := new Document(TypeUpdate(data.fields, docType, draw), data.items);
    }

    /** `addItem()`. */
    method AddItem()
      requires Valid()
      modifies this
      ensures WellFormed(data.fields) && fresh(data)
      ensures data.fields == old(data.fields) && data.items == Added(old(data.items))
    {
      data := new Document(data.fields, Added(data.items));
    }

    /** `deleteItem(index)`. */
    method DeleteItem(index: int)
      requires Valid()
      modifies this
      ensures WellFormed(data.fields) && fresh(data)
      ensures data.fields == old(data.fields) && data.items == DeletedAt(old(data.items), index)
    {
      data := new Document(data.fields, DeletedAt(data.items, index));
    }

    /** `updateItem(index, field, value)`; `number` is `Number(value)`. */
    method UpdateItem(index: int, field: ItemField, text: string, number: Numbers.JsNumber)
      requires Valid()
      modifies this
      ensures WellFormed(data.fields) && fresh(data)
      ensures data.fields == old(data.fields) && data.items == UpdatedAt(old(data.items), index, field, text, number)
    {
      data := new Document(data.fields, UpdatedAt(data.items, index, field, text, number));
    }

    function TaxRate(): real
      reads this, data
      requires Valid()
    {
      data.fields[TaxRateKey].leaf.number
    }

    /** The `total` the preview shows. */
    function GrandTotal(): int
      reads this, data
      requires Valid()
    {
      Total(data.items, TaxRate())
    }

    /** The "Amount in Words" line of the preview. */
    function AmountInWords(): string
      reads this, data
      requires Valid()
    {
      InvoiceWords.NumToWords(GrandTotal() as real)
    }
  }
}
