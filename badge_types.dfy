/** The vocabulary of the badge: the seven notification types, their
    string names as the `types` table spells them, and the two identity
    tables (`types`, `positions`) that `objFromItems` builds. */
module BadgeTypes {

  datatype Option<+T> = None | Some(value: T) {
    function GetOr(default: T): T {
      match this
      case Some(v) => v
      case None => default
    }
  }

  /** The notification types; every popup shows exactly one of them. */
  datatype Type = Disconnected | Wait | Connecting | Sending | Synchronized | Refresh | Error

  /** The string a type has in the `types` table (and in `sync.state`). */
  function Name(t: Type): string {
    match t
    case Disconnected => "disconnected"
    case Wait => "wait"
    case Connecting => "connecting"
    case Sending => "sending"
    case Synchronized => "synchronized"
    case Refresh => "refresh"
    case Error => "error"
  }

  /** Reads a state string back as a type; strings outside the table
      (such as "connected" or "synchronised") have no type. */
  function TypeOf(s: string): (r: Option<Type>)
    ensures r.Some? ==> Name(r.value) == s
    ensures r.None? ==> forall t :: Name(t) != s
  {
    if s == "disconnected" then Some(Disconnected)
    else if s == "wait" then Some(Wait)
    else if s == "connecting" then Some(Connecting)
    else if s == "sending" then Some(Sending)
    else if s == "synchronized" then Some(Synchronized)
    else if s == "refresh" then Some(Refresh)
    else if s == "error" then Some(Error)
    else None
  }

  /** The items the source passes to `objFromItems` to build `types`. */
  const TypeNames: seq<string> :=
    ["disconnected", "wait", "connecting", "sending", "synchronized", "refresh", "error"]

  /** The items the source passes to `objFromItems` to build `positions`. */
  const PositionNames: seq<string> :=
    ["top", "topLeft", "topRight", "bottom", "bottomLeft", "bottomRight"]

  /** `objFromItems`: a dictionary holding every item as a key mapped to
      itself. Assigning to the key "__proto__" of a plain object calls the
      prototype setter, which ignores a string, so that item is dropped. */
  method ObjFromItems(items: seq<string>) returns (result: map<string, string>)
    ensures result.Keys == (set i | 0 <= i < |items| :: items[i]) - {"__proto__"}
    ensures forall k :: k in result ==> result[k] == k
  {
    result := map[];
    var i := 0;
    while i < |items|
      invariant 0 <= i <= |items|
      invariant result.Keys == (set j | 0 <= j < i :: items[j]) - {"__proto__"}
      invariant forall k :: k in result ==> result[k] == k
    {
      assert (set j | 0 <= j < i + 1 :: items[j]) == (set j | 0 <= j < i :: items[j]) + {items[i]};
      if items[i] != "__proto__" {
        result := result[items[i] := items[i]];
      }
      i := i + 1;
    }
  }

  /** The module-level `types` table: exactly the seven type names, each
      mapped to itself, so `types.wait` is the string "wait". */
  method TypesTable() returns (types: map<string, string>)
    ensures forall t :: Name(t) in types && types[Name(t)] == Name(t)
    ensures forall k :: k in types ==> TypeOf(k).Some?
  {
    types := ObjFromItems(TypeNames);
    forall t: Type ensures Name(t) in types {
      assert Name(t) == TypeNames[match t
        case Disconnected => 0 case Wait => 1 case Connecting => 2 case Sending => 3
        case Synchronized => 4 case Refresh => 5 case Error => 6];
    }
  }

  /** The `positions` table exposed as `badge.positions`: the six position
      names, each mapped to itself. */
  method PositionsTable() returns (positions: map<string, string>)
    ensures positions.Keys == {"top", "topLeft", "topRight", "bottom", "bottomLeft", "bottomRight"}
    ensures forall k :: k in positions ==> positions[k] == k
  {
    positions := ObjFromItems(PositionNames);
    assert positions.Keys == set i | 0 <= i < |PositionNames| :: PositionNames[i];
    assert PositionNames[0] == "top" && PositionNames[1] == "topLeft" && PositionNames[2] == "topRight";
    assert PositionNames[3] == "bottom" && PositionNames[4] == "bottomLeft" && PositionNames[5] == "bottomRight";
  }
}
