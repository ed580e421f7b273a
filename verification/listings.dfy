/** The webhook's response body and the record shape `executeSearch` builds
    from it (the `result.map(item => ({ Nome: ..., ... }))` step). */
module Listings {
  import opened Text

  /** A field that may be missing (`undefined`) or `null` in the JSON body. */
  datatype Option<+T> = None | Some(value: T)

  /** A JSON number (rating, review count), carried through untouched. */
  datatype Numeric = Numeric(literal: string)

  /** The `emails_and_contacts` object of a listing. */
  datatype Contacts = Contacts(phoneNumbers: Option<seq<string>>)

  /** One business entry of the response, with the fields the page reads. */
  datatype Listing = Listing(
    name: Option<string>,
    contacts: Option<Contacts>,
    subtypes: Option<seq<string>>,
    address: Option<string>,
    website: Option<string>,
    city: Option<string>,
    state: Option<string>,
    zipcode: Option<string>,
    rating: Option<Numeric>,
    reviewCount: Option<Numeric>)

  /** An entry of the response array. Reading a property of `null` throws;
      reading one of any other non-object value yields `undefined`. */
  datatype Element = Object(listing: Listing) | Null | Scalar

  /** The decoded body: an array, or any other JSON value. */
  datatype Response = Arr(elements: seq<Element>) | NotArr

  /** The normalised record held in `searchResultsData`. */
  datatype Record = Record(
    nome: Option<string>,
    telefone: Option<string>,
    categorias: string,
    endereco: Option<string>,
    website: Option<string>,
    cidade: Option<string>,
    estado: Option<string>,
    cep: Option<string>,
    rating: Option<Numeric>,
    avaliacoes: Option<Numeric>)

  const CategorySeparator := ", "

  const NoFields := Listing(None, None, None, None, None, None, None, None, None, None)

  /** `item.emails_and_contacts?.phone_numbers?.[0] || null` */
  function FirstPhone(l: Listing): (p: Option<string>)
    ensures p.Some? ==> p.value != ""
    ensures p.Some? ==>
      && l.contacts.Some? && l.contacts.value.phoneNumbers.Some?
      && |l.contacts.value.phoneNumbers.value| > 0
      && p.value == l.contacts.value.phoneNumbers.value[0]
    ensures p.None? && l.contacts.Some? && l.contacts.value.phoneNumbers.Some?
      && |l.contacts.value.phoneNumbers.value| > 0
      ==> l.contacts.value.phoneNumbers.value[0] == ""
  {
    match l.contacts
    case None => None
    case Some(c) =>
      match c.phoneNumbers
      case None => None
      case Some(ps) => if |ps| > 0 && ps[0] != "" then Some(ps[0]) else None
  }

  /** `Array.isArray(item.subtypes) ? item.subtypes.join(', ') : ''` */
  function Categories(l: Listing): (c: string)
    ensures l.subtypes.None? ==> c == ""
    ensures l.subtypes.Some? && |l.subtypes.value| == 1 ==> c == l.subtypes.value[0]
    ensures l.subtypes.Some? && |l.subtypes.value| > 1 ==>
      StartsWith(c, l.subtypes.value[0] + CategorySeparator)
  {
    match l.subtypes
    case None => ""
    case Some(xs) => Join(xs, CategorySeparator)
  }

  /** The record built from one listing object. */
  function ToRecord(l: Listing): (r: Record)
    ensures r.nome == l.name
    ensures r.telefone.Some? <==>
      && l.contacts.Some? && l.contacts.value.phoneNumbers.Some?
      && |l.contacts.value.phoneNumbers.value| > 0
      && l.contacts.value.phoneNumbers.value[0] != ""
    ensures r.telefone.Some? ==> r.telefone.value == l.contacts.value.phoneNumbers.value[0]
    ensures l.subtypes.None? ==> r.categorias == ""
    ensures l.subtypes.Some? && |l.subtypes.value| == 1 ==> r.categorias == l.subtypes.value[0]
    ensures r.endereco == l.address && r.website == l.website
    ensures r.cidade == l.city && r.estado == l.state && r.cep == l.zipcode
    ensures r.rating == l.rating && r.avaliacoes == l.reviewCount
  {
    Record(l.name, FirstPhone(l), Categories(l), l.address, l.website,
           l.city, l.state, l.zipcode, l.rating, l.reviewCount)
  }

  /** The fields visible through an array entry that is not `null`. */
  function FieldsOf(e: Element): Listing
    requires !e.Null?
  {
    match e
    case Object(l) => l
    case Scalar => NoFields
  }

  /** `result.map(...)` over the array: one record per entry, in order, or a
      thrown TypeError (`None`) as soon as an entry is `null`. */
  function MapElements(es: seq<Element>): (r: Option<seq<Record>>)
    ensures r.None? <==> exists i :: 0 <= i < |es| && es[i].Null?
    ensures r.Some? ==> |r.value| == |es|
    ensures r.Some? ==> forall i :: 0 <= i < |es| ==> r.value[i] == ToRecord(FieldsOf(es[i]))
  {
    if es == [] then Some([])
    else if es[0].Null? then None
    else
      match MapElements(es[1..])
      case None => None
      case Some(rest) => Some([ToRecord(FieldsOf(es[0]))] + rest)
  }

  /** script.js:107-124: an array is mapped entry by entry; any other value gives
      the empty record set. `None` stands for the TypeError thrown by a `null`
      entry, which the surrounding `catch` handles. */
  function Normalize(body: Response): (r: Option<seq<Record>>)
    ensures body.NotArr? ==> r == Some([])
    ensures body.Arr? && (forall i :: 0 <= i < |body.elements| ==> !body.elements[i].Null?)
      ==> r.Some? && |r.value| == |body.elements|
    ensures body.Arr? && (exists i :: 0 <= i < |body.elements| && body.elements[i].Null?)
      ==> r.None?
  {
    match body
    case NotArr => Some([])
    case Arr(es) => MapElements(es)
  }

  /** An array of N listing objects gives N records, record i built from
      listing i: order kept, duplicates kept. */
  lemma NormalizeListings(ls: seq<Listing>)
    ensures var r := Normalize(Arr(seq(|ls|, i requires 0 <= i < |ls| => Object(ls[i]))));
      && r.Some? && |r.value| == |ls|
      && forall i :: 0 <= i < |ls| ==> r.value[i] == ToRecord(ls[i])
  {
    var es := seq(|ls|, i requires 0 <= i < |ls| => Object(ls[i]));
    assert forall i :: 0 <= i < |es| ==> !es[i].Null? && FieldsOf(es[i]) == ls[i];
  }

  /** Listings that are equal give equal records, wherever they sit. */
  lemma NormalizeKeepsDuplicates(es: seq<Element>, i: nat, j: nat)
    requires i < |es| && j < |es| && es[i] == es[j]
    requires MapElements(es).Some?
    ensures MapElements(es).value[i] == MapElements(es).value[j]
  {
  }

  /** Mapping distributes over concatenation of the response array. */
  lemma {:induction false} MapElementsAppend(a: seq<Element>, b: seq<Element>)
    ensures MapElements(a + b) ==
      (if MapElements(a).Some? && MapElements(b).Some?
       then Some(MapElements(a).value + MapElements(b).value) else None)
  {
    if a == [] {
      assert a + b == b;
      if MapElements(b).Some? {
        assert [] + MapElements(b).value == MapElements(b).value;
      }
    } else {
      assert (a + b)[0] == a[0];
      assert (a + b)[1..] == a[1..] + b;
      MapElementsAppend(a[1..], b);
      if !a[0].Null? && MapElements(a[1..]).Some? && MapElements(b).Some? {
        assert [ToRecord(FieldsOf(a[0]))] + (MapElements(a[1..]).value + MapElements(b).value)
          == ([ToRecord(FieldsOf(a[0]))] + MapElements(a[1..]).value) + MapElements(b).value;
      }
    }
  }

  /** The phone is the first listed number when there is a non-empty one. */
  lemma PhoneIsFirstNumber(l: Listing, ps: seq<string>)
    requires l.contacts == Some(Contacts(Some(ps)))
    ensures |ps| > 0 && ps[0] != "" ==> ToRecord(l).telefone == Some(ps[0])
    ensures |ps| == 0 || ps[0] == "" ==> ToRecord(l).telefone == None
  {
  }

  /** Categories are empty exactly when `subtypes` is missing, `[]` or `[""]`. */
  lemma CategoriesEmptyIff(l: Listing)
    ensures ToRecord(l).categorias == "" <==>
      l.subtypes.None? || l.subtypes.value == [] || l.subtypes.value == [""]
  {
    if l.subtypes.Some? {
      JoinEmptyIff(l.subtypes.value, CategorySeparator);
    }
  }

  /** Categories of the subtypes `a + b` are those of `a`, a separator, those of `b`. */
  lemma {:induction false} CategoriesAppend(l: Listing, a: seq<string>, b: seq<string>)
    requires l.subtypes == Some(a + b) && |a| > 0 && |b| > 0
    ensures ToRecord(l).categorias == Join(a, ", ") + ", " + Join(b, ", ")
  {
    JoinAppend(a, b, CategorySeparator);
  }
}
