/** The WMI service as the query engine sees it, and the pure specification
    of the two queries `HardwareIdentifier` runs against it.

    A query is sent as WQL text (`SELECT <property> FROM <class>`) and either
    fails (`ExecQuery` returns a failing HRESULT) or yields the objects its
    enumerator returns, in enumeration order, until `Next` returns no object
    or fails. Each object is a property bag; reading one property (`Get`)
    fails when the property is not in the bag, and yields a variant
    otherwise. Only a variant of type `VT_BSTR` with a non-null string counts
    as text. */
module Wmi {
  import opened Wrappers

  /** A `BSTR`, as a sequence of characters. */
  type WideString = seq<char>

  /** A property value: a `VT_BSTR` whose `bstrVal` may be null, or any other
      variant type (`VT_NULL`, numbers, arrays, ...). */
  datatype Variant = VtBstr(bstrVal: Option<WideString>) | VtOther

  /** One `IWbemClassObject`: property name to value. */
  type WbemObject = map<string, Variant>

  /** What `ExecQuery` and the enumerator it returns produce. */
  datatype QueryOutcome = QueryFailed | Enumerated(objects: seq<WbemObject>)

  /** The service behind `IWbemServices`: WQL text to outcome. */
  type Service = string -> QueryOutcome

  /** The WQL text both queries send. */
  function Wql(wmiClass: string, property: string): string
  {
    "SELECT " + property + " FROM " + wmiClass
  }

  /** `IWbemClassObject::Get`: None when the call fails. */
  function Get(obj: WbemObject, property: string): (v: Option<Variant>)
    ensures v.Some? <==> property in obj
  {
    if property in obj then Some(obj[property]) else None
  }

  /** `WideStringToString`: the UTF-16 to UTF-8 conversion, taken as the
      identity on characters; an empty input maps to an empty output. */
  function WideStringToString(w: WideString): (s: string)
    ensures |s| == 0 <==> |w| == 0
  {
    if |w| == 0 then "" else w
  }

  /** `std::wstring(const wchar_t*)` on a `BSTR`: the characters before the
      first NUL. A `BSTR` carries its length and may hold NULs; the copy
      stops at the first one. */
  function CString(w: WideString): (s: WideString)
    ensures s <= w && '\0' !in s
    ensures |s| < |w| ==> w[|s|] == '\0'
    decreases |w|
  {
    if w == [] || w[0] == '\0' then [] else [w[0]] + CString(w[1..])
  }

  /** The text an object holds for a property: Some only when `Get` succeeds,
      the variant is a `VT_BSTR` and its string pointer is not null. */
  function PropertyText(obj: WbemObject, property: string): (t: Option<string>)
    ensures t.Some? <==> property in obj && obj[property].VtBstr? && obj[property].bstrVal.Some?
  {
    match Get(obj, property)
    case Some(VtBstr(Some(w))) => Some(WideStringToString(CString(w)))
    case _ => None
  }

  /** The text read from a `VT_BSTR` is its prefix before the first NUL; a
      string without NUL is read whole, and one that starts with NUL reads
      as "", so the value counts as missing. */
  lemma PropertyTextStopsAtNul(obj: WbemObject, property: string, w: WideString)
    requires property in obj && obj[property] == VtBstr(Some(w))
    ensures PropertyText(obj, property).Some?
    ensures '\0' !in PropertyText(obj, property).value
    ensures PropertyText(obj, property).value <= w
    ensures '\0' !in w ==> PropertyText(obj, property) == Some(w)
    ensures |w| > 0 && w[0] == '\0' ==> PropertyText(obj, property) == Some("")
  {
    var s := CString(w);
    assert PropertyText(obj, property) == Some(s);
    if '\0' !in w {
      assert s == w;
    }
  }

  /** The object at position `index` of the enumeration, read as text, or
      "" when there is no such object or it holds no text. */
  function SelectAt(objects: seq<WbemObject>, property: string, index: int): string
  {
    if 0 <= index < |objects| then PropertyText(objects[index], property).GetOr("") else ""
  }

  /** True when an object contributes to a multi-result query. */
  predicate HasNonEmptyText(obj: WbemObject, property: string) {
    PropertyText(obj, property).Some? && PropertyText(obj, property).value != ""
  }

  /** The non-empty texts of the objects, in enumeration order. */
  function NonEmptyTexts(objects: seq<WbemObject>, property: string): (r: seq<string>)
    ensures |r| <= |objects|
    decreases |objects|
  {
    if objects == [] then []
    else
      var head := if HasNonEmptyText(objects[0], property)
                  then [PropertyText(objects[0], property).value] else [];
      head + NonEmptyTexts(objects[1..], property)
  }

  /** What `ExecuteWmiQuery(wmiClass, property, index)` returns. */
  function SingleResult(initialized: bool, service: Service, wmiClass: string,
                        property: string, index: int): string
  {
    if !initialized then ""
    else
      match service(Wql(wmiClass, property))
      case QueryFailed => ""
      case Enumerated(objects) => SelectAt(objects, property, index)
  }

  /** What `ExecuteWmiQueryMultiple(wmiClass, property)` returns. */
  function AllResults(initialized: bool, service: Service, wmiClass: string,
                      property: string): seq<string>
  {
    if !initialized then []
    else
      match service(Wql(wmiClass, property))
      case QueryFailed => []
      case Enumerated(objects) => NonEmptyTexts(objects, property)
  }

  // ---------------------------------------------------------------------
  // Properties of the specification

  /** The multi-result filter distributes over concatenation of enumerations:
      results come out in enumeration order, batch by batch. */
  lemma {:induction false} NonEmptyTextsAppend(a: seq<WbemObject>, b: seq<WbemObject>, property: string)
    ensures NonEmptyTexts(a + b, property) == NonEmptyTexts(a, property) + NonEmptyTexts(b, property)
    decreases |a|
  {
    if a == [] {
      assert a + b == b;
    } else {
      assert (a + b)[0] == a[0];
      assert (a + b)[1..] == a[1..] + b;
      NonEmptyTextsAppend(a[1..], b, property);
    }
  }

  /** A value is in the multi-result exactly when it is non-empty and some
      enumerated object holds it as text. */
  lemma {:induction false} NonEmptyTextsMembers(objects: seq<WbemObject>, property: string, v: string)
    ensures v in NonEmptyTexts(objects, property) <==>
            v != "" && exists i :: 0 <= i < |objects| && PropertyText(objects[i], property) == Some(v)
    decreases |objects|
  {
    if objects != [] {
      NonEmptyTextsMembers(objects[1..], property, v);
      if v != "" && (exists i :: 0 <= i < |objects| && PropertyText(objects[i], property) == Some(v)) {
        var i :| 0 <= i < |objects| && PropertyText(objects[i], property) == Some(v);
        if i > 0 {
          assert PropertyText(objects[1..][i - 1], property) == Some(v);
        }
      }
      if v in NonEmptyTexts(objects[1..], property) {
        var j :| 0 <= j < |objects[1..]| && PropertyText(objects[1..][j], property) == Some(v);
        assert PropertyText(objects[j + 1], property) == Some(v);
      }
    }
  }

  /** The multi-result never holds the empty string. */
  lemma NonEmptyTextsHasNoEmpty(objects: seq<WbemObject>, property: string)
    ensures "" !in NonEmptyTexts(objects, property)
  {
    NonEmptyTextsMembers(objects, property, "");
  }

  /** The first multi-result is the text of the first object that has a
      non-empty one: every object before it contributes nothing. */
  lemma {:induction false} NonEmptyTextsFirst(objects: seq<WbemObject>, property: string)
    requires NonEmptyTexts(objects, property) != []
    ensures exists j :: 0 <= j < |objects| && HasNonEmptyText(objects[j], property)
              && PropertyText(objects[j], property).value == NonEmptyTexts(objects, property)[0]
              && forall k :: 0 <= k < j ==> !HasNonEmptyText(objects[k], property)
    decreases |objects|
  {
    if !HasNonEmptyText(objects[0], property) {
      NonEmptyTextsFirst(objects[1..], property);
      var j :| 0 <= j < |objects[1..]| && HasNonEmptyText(objects[1..][j], property)
                && PropertyText(objects[1..][j], property).value == NonEmptyTexts(objects[1..], property)[0]
                && forall k :: 0 <= k < j ==> !HasNonEmptyText(objects[1..][k], property);
      assert objects[j + 1] == objects[1..][j];
      forall k | 0 <= k < j + 1 ensures !HasNonEmptyText(objects[k], property) {
        if k > 0 { assert objects[k] == objects[1..][k - 1]; }
      }
    } else {
      assert HasNonEmptyText(objects[0], property);
    }
  }

  /** The single result is empty when the session is not initialized or the
      query fails; otherwise it is non-empty exactly when the object at
      `index` exists and holds non-empty text, and then it is that text. */
  lemma SingleResultCases(initialized: bool, service: Service, wmiClass: string,
                          property: string, index: int)
    ensures !initialized ==> SingleResult(initialized, service, wmiClass, property, index) == ""
    ensures service(Wql(wmiClass, property)).QueryFailed? ==>
              SingleResult(initialized, service, wmiClass, property, index) == ""
    ensures initialized && service(Wql(wmiClass, property)).Enumerated? ==>
              var objects := service(Wql(wmiClass, property)).objects;
              var r := SingleResult(initialized, service, wmiClass, property, index);
              (r != "" <==> 0 <= index < |objects| && HasNonEmptyText(objects[index], property))
              && (r != "" ==> PropertyText(objects[index], property) == Some(r))
  {
  }

  /** The multi-result is empty when the session is not initialized or the
      query fails; it is never longer than the enumeration and never holds "". */
  lemma AllResultsBounds(initialized: bool, service: Service, wmiClass: string, property: string)
    ensures !initialized ==> AllResults(initialized, service, wmiClass, property) == []
    ensures service(Wql(wmiClass, property)).QueryFailed? ==>
              AllResults(initialized, service, wmiClass, property) == []
    ensures service(Wql(wmiClass, property)).Enumerated? ==>
              |AllResults(initialized, service, wmiClass, property)|
                <= |service(Wql(wmiClass, property)).objects|
    ensures "" !in AllResults(initialized, service, wmiClass, property)
  {
    if initialized && service(Wql(wmiClass, property)).Enumerated? {
      NonEmptyTextsHasNoEmpty(service(Wql(wmiClass, property)).objects, property);
    }
  }

  /** The two engines agree on the first object: when the single query for
      index 0 yields text, the multi-result starts with that same text. */
  lemma FirstResultAgrees(initialized: bool, service: Service, wmiClass: string, property: string)
    requires SingleResult(initialized, service, wmiClass, property, 0) != ""
    ensures AllResults(initialized, service, wmiClass, property) != []
    ensures AllResults(initialized, service, wmiClass, property)[0]
            == SingleResult(initialized, service, wmiClass, property, 0)
  {
  }
}
