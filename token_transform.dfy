// The antctl output transform for tokens: Secrets become {Namespace, Name}
// responses, rendered as a two-column table.
//
// The Go functions take and return interface{} values and use type
// assertions; here the argument is a `Value` that records its dynamic type,
// and a failed single-valued assertion, which panics in Go, is `Panicked`.

module TokenTransform {

  /** A Secret; its data and type do not reach the response. */
  datatype Secret = Secret(namespace: string, name: string)

  /** The dynamic types that occur in the transform. */
  datatype GoType = SecretType | SecretPointerType | SecretListType | OtherType

  /** A value held by an interface{} argument. */
  datatype Value = SecretValue(secret: Secret) | SecretPointer(target: Secret) | SecretList(items: seq<Secret>) | OtherValue

  function TypeOf(v: Value): GoType
  {
    match v
    case SecretValue(_) => SecretType
    case SecretPointer(_) => SecretPointerType
    case SecretList(_) => SecretListType
    case OtherValue => OtherType
  }

  /** The runtime panic of a failed type assertion: the dynamic type found and the type asserted. */
  datatype Panic = InterfaceConversion(have: GoType, want: GoType)

  datatype Outcome<T> = Returned(value: T) | Panicked(panic: Panic)

  datatype Response = Response(namespace: string, name: string)

  /** What Transform returns: one response, or a list of them. */
  datatype Output = Single(response: Response) | Rows(responses: seq<Response>)

  function ToResponse(s: Secret): (r: Response)
    ensures r.namespace == s.namespace && r.name == s.name
  {
    Response(s.namespace, s.name)
  }

  /** Asserts its argument to be a Secret held by value and maps it to a response. */
  function ObjectTransform(o: Value): (r: Outcome<Response>)
    ensures r.Returned? <==> o.SecretValue?
    ensures o.SecretValue? ==> r.value.namespace == o.secret.namespace && r.value.name == o.secret.name
    ensures r.Panicked? ==> r.panic == InterfaceConversion(TypeOf(o), SecretType)
  {
    match o
    case SecretValue(s) => Returned(ToResponse(s))
    case _ => Panicked(InterfaceConversion(TypeOf(o), SecretType))
  }

  /** The responses of `secrets`, in order. */
  function Responses(secrets: seq<Secret>): (r: seq<Response>)
    ensures |r| == |secrets|
    ensures forall k :: 0 <= k < |secrets| ==> r[k].namespace == secrets[k].namespace && r[k].name == secrets[k].name
  {
    if secrets == [] then [] else Responses(secrets[..|secrets| - 1]) + [ToResponse(secrets[|secrets| - 1])]
  }

  /** One step of the list loop: append the item's response, or propagate the first panic. */
  function Collect(acc: Outcome<seq<Response>>, item: Outcome<Response>): Outcome<seq<Response>>
  {
    match acc
    case Panicked(_) => acc
    case Returned(rs) =>
      match item
      case Panicked(p) => Panicked(p)
      case Returned(resp) => Returned(rs + [resp])
  }

  /** The list transform as written: each item is passed by pointer to an assertion to the value type. */
  method ListTransformAsWritten(l: Value) returns (r: Outcome<seq<Response>>)
    ensures !l.SecretList? ==> r == Panicked(InterfaceConversion(TypeOf(l), SecretListType))
    ensures l.SecretList? && l.items == [] ==> r == Returned([])
    ensures l.SecretList? && l.items != [] ==> r == Panicked(InterfaceConversion(SecretPointerType, SecretType))
  {
    if !l.SecretList? {
      return Panicked(InterfaceConversion(TypeOf(l), SecretListType));
    }
    var tokens := l.items;
    r := Returned([]);
    var i := 0;
    while i < |tokens| && r.Returned?
      invariant 0 <= i <= |tokens|
      invariant i == 0 ==> r == Returned([])
      invariant i > 0 ==> r == Panicked(InterfaceConversion(SecretPointerType, SecretType))
    {
      var item := tokens[i];
      r := Collect(r, ObjectTransform(SecretPointer(item)));
      i := i + 1;
    }
  }

  /** The list transform with each item passed by value: one response per Secret, in order. */
  method ListTransform(l: Value) returns (r: Outcome<seq<Response>>)
    ensures !l.SecretList? ==> r == Panicked(InterfaceConversion(TypeOf(l), SecretListType))
    ensures l.SecretList? ==> r == Returned(Responses(l.items))
  {
    if !l.SecretList? {
      return Panicked(InterfaceConversion(TypeOf(l), SecretListType));
    }
    var tokens := l.items;
    r := Returned([]);
    for i := 0 to |tokens|
      invariant r == Returned(Responses(tokens[..i]))
    {
      var item := tokens[i];
      r := Collect(r, ObjectTransform(SecretValue(item)));
      assert tokens[..i + 1][..i] == tokens[..i];
    }
    assert tokens[..|tokens|] == tokens;
  }

  /**
   * Dispatches to the object transform for a single object and to the list
   * transform otherwise. The list branch is the list transform as written, so
   * only an empty list of Secrets comes back without a panic.
   */
  method Transform(r: Value, single: bool) returns (out: Outcome<Output>)
    ensures single ==> (out.Returned? <==> r.SecretValue?)
    ensures single && r.SecretValue? ==> out == Returned(Single(ToResponse(r.secret)))
    ensures !single ==> (out.Returned? <==> r.SecretList? && r.items == [])
    ensures !single && r.SecretList? && r.items == [] ==> out == Returned(Rows([]))
    ensures !single && r.SecretList? && r.items != [] ==>
      out == Panicked(InterfaceConversion(SecretPointerType, SecretType))
    ensures out.Panicked? && (single || !r.SecretList?) ==>
      out.panic == InterfaceConversion(TypeOf(r), if single then SecretType else SecretListType)
  {
    if single {
      match ObjectTransform(r)
      case Returned(resp) => out := Returned(Single(resp));
      case Panicked(p) => out := Panicked(p);
    } else {
      var listed := ListTransformAsWritten(r);
      match listed
      case Returned(rs) => out := Returned(Rows(rs));
      case Panicked(p) => out := Panicked(p);
    }
  }

  /** The two column titles of the token table. */
  function GetTableHeader(r: Response): (header: seq<string>)
    ensures |header| == 2 && header[0] == "NAMESPACE" && header[1] == "NAME"
  {
    ["NAMESPACE", "NAME"]
  }

  /** One cell per header column: the namespace under NAMESPACE and the name under NAME. */
  function GetTableRow(r: Response, maxColumnLength: int): (row: seq<string>)
    ensures |row| == |GetTableHeader(r)|
    ensures row[0] == r.namespace && row[1] == r.name
  {
    [r.namespace, r.name]
  }

  /** Token rows are always sorted before they are printed. */
  predicate SortRows(r: Response): (sorted: bool)
    ensures sorted
  {
    true
  }

  /** The header is the same for every response, and the row does not depend on the column width limit. */
  lemma TableLayoutFixed(r1: Response, r2: Response, width1: int, width2: int)
    ensures GetTableHeader(r1) == GetTableHeader(r2)
    ensures GetTableRow(r1, width1) == GetTableRow(r1, width2)
    ensures SortRows(r1)
  {
  }
}
