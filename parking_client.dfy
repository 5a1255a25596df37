/**
 * The browser script of the landing page (public/parking.js): it reads the
 * garage, floor and stair from the page's query string, keeps a newest-first
 * history of saved spots under the `spots` key of local storage, and shows
 * the most recent one in the status element.
 *
 * The history is a `SpotHistory` object whose one field is the stored item;
 * `SaveSpot` and `GetSpots` are proved against the functions `Saved` and
 * `Read`, and the lemmas at the end relate several page loads.
 */
module ParkingClient {
  import opened Wrappers
  import opened JsValues

  // ---------------------------------------------------------------- query string

  /** The query string's (name, value) pairs, in order, already percent-decoded. */
  type Query = seq<(string, string)>

  /** `url.searchParams.get(name)`: the value of the first pair with that name, or null. */
  function SearchParam(q: Query, name: string): (v: Value)
    ensures v.Null? || v.Str?
    ensures v.Null? <==> forall i :: 0 <= i < |q| ==> q[i].0 != name
    ensures v.Str? ==> exists i :: 0 <= i < |q| && q[i].0 == name && v.s == q[i].1
                                   && forall j :: 0 <= j < i ==> q[j].0 != name
  {
    if q == [] then Null
    else if q[0].0 == name then Str(q[0].1)
    else
      var v := SearchParam(q[1..], name);
      assert forall i :: 1 <= i < |q| ==> q[i] == q[1..][i - 1];
      v
  }

  datatype Params = Params(garage: Value, floor: Value, stair: Value)

  /** `parseParams` */
  function ParseParams(q: Query): (p: Params)
    ensures p.garage == SearchParam(q, "garage")
    ensures p.floor == SearchParam(q, "floor")
    ensures p.stair == SearchParam(q, "stair")
  {
    Params(SearchParam(q, "garage"), SearchParam(q, "floor"), SearchParam(q, "stair"))
  }

  // ---------------------------------------------------------------- local storage

  /** One history entry: the query parameters and the save time in milliseconds. */
  datatype SavedSpot = SavedSpot(garage: Value, floor: Value, stair: Value, timestamp: int)

  /**
   * What `localStorage.getItem("spots")` holds, as far as `JSON.parse` sees it:
   * nothing, the empty string, an array of saved spots, or text that is not JSON.
   */
  datatype Item = Absent | EmptyText | SpotArray(spots: seq<SavedSpot>) | Malformed

  /** The list `getSpots` and `saveSpot` start from: missing, empty or unparsable data is the empty list. */
  function Read(item: Item): (spots: seq<SavedSpot>)
    ensures item.SpotArray? ==> spots == item.spots
    ensures !item.SpotArray? ==> spots == []
  {
    if item.SpotArray? then item.spots else []
  }

  /** `{...spot, timestamp: Date.now()}` */
  function Stamp(p: Params, now: int): (s: SavedSpot)
    ensures s.garage == p.garage && s.floor == p.floor && s.stair == p.stair && s.timestamp == now
  {
    SavedSpot(p.garage, p.floor, p.stair, now)
  }

  /** The item `saveSpot(p)` writes back: the stamped spot, then every earlier entry in order. */
  function Saved(item: Item, p: Params, now: int): (r: Item)
    ensures r.SpotArray? && |r.spots| == |Read(item)| + 1
    ensures r.spots[0] == Stamp(p, now) && r.spots[1..] == Read(item)
  {
    SpotArray([Stamp(p, now)] + Read(item))
  }

  /** The `spots` entry of local storage. */
  class SpotHistory {
    var item: Item

    constructor (stored: Item)
      ensures item == stored
    {
      item := stored;
    }

    /** `saveSpot`: parse the stored list (empty on failure), `unshift` the stamped spot, store it. */
    method SaveSpot(p: Params, now: int)
      modifies this
      ensures item == Saved(old(item), p, now)
    {
      var spots: seq<SavedSpot>;
      match item {
        case SpotArray(list) => spots := list;
        case _ => spots := [];
      }
      spots := [Stamp(p, now)] + spots;
      item := SpotArray(spots);
    }

    /** `getSpots`: the stored list, or the empty list when there is none or it does not parse. */
    method GetSpots() returns (spots: seq<SavedSpot>)
      ensures spots == Read(item)
    {
      match item {
        case SpotArray(list) => spots := list;
        case _ => spots := [];
      }
    }
  }

  // ---------------------------------------------------------------- status text

  /**
   * The placeholder status of an empty history. It is written as two
   * literals because the verifier reads the characters of short literals
   * only, and `StatusText` needs its first character.
   */
  const NoParkingYet := "No parking saved yet." + " Tap a Garage Helper tag."

  /**
   * The status line for a history: the placeholder exactly when it is empty,
   * otherwise the line naming the garage, floor and stair of its first entry.
   */
  function StatusText(spots: seq<SavedSpot>): (t: string)
    ensures t == NoParkingYet <==> spots == []
    ensures spots != [] ==> t == StatusLine(spots[0].garage, spots[0].floor, spots[0].stair)
  {
    if |spots| == 0 then NoParkingYet
    else
      var line := StatusLine(spots[0].garage, spots[0].floor, spots[0].stair);
      assert line[0] == 'C' && NoParkingYet[0] == 'N';
      line
  }

  /**
   * "Current: <garage>, Floor <floor>, Stair <stair>", absent values rendered
   * by JavaScript's String(): the garage, then the floor, then the stair.
   */
  function StatusLine(garage: Value, floor: Value, stair: Value): (line: string)
    ensures |line| > 9 + |ToString(garage)| + |ToString(stair)| && line[..9] == "Current: "
    ensures line[9..9 + |ToString(garage)|] == ToString(garage)
    ensures line[|line| - |ToString(stair)|..] == ToString(stair)
    ensures line[9 + |ToString(garage)|..|line| - |ToString(stair)|] == ", Floor " + ToString(floor) + ", Stair "
  {
    var middle := ", Floor " + ToString(floor) + ", Stair ";
    assert |middle| > 0 by { assert middle[0] == ','; }
    FourParts("Current: ", ToString(garage), middle, ToString(stair));
    "Current: " + ToString(garage) + middle + ToString(stair)
  }

  /** Where each of four concatenated strings sits in the result. */
  lemma FourParts(a: string, b: string, c: string, d: string)
    ensures var x := a + b + c + d;
      && |x| == |a| + |b| + |c| + |d|
      && x[..|a|] == a && x[|a|..|a| + |b|] == b
      && x[|a| + |b|..|x| - |d|] == c && x[|x| - |d|..] == d
  {
    var x := a + b + c + d;
    assert x[..|a| + |b| + |c|] == a + b + c;
    assert (a + b + c)[..|a| + |b|] == a + b;
  }

  /**
   * The DOMContentLoaded listener: save a spot when the query has a floor,
   * read the history back, and return the text for the status element
   * (nothing when the page has none).
   */
  method OnContentLoaded(h: SpotHistory, q: Query, now: int, hasStatus: bool) returns (status: Option<string>)
    modifies h
    ensures var p := ParseParams(q);
      h.item == if Truthy(p.floor) then Saved(old(h.item), p, now) else old(h.item)
    ensures status == if hasStatus then Some(StatusText(Read(h.item))) else None
  {
    var params := ParseParams(q);
    if Truthy(params.floor) {
      h.SaveSpot(params, now);
    }
    var spots := h.GetSpots();
    if !hasStatus {
      return None;
    }
    status := Some(StatusText(spots));
  }

  /** Loading a page whose query carries a floor shows that page's garage, floor and stair. */
  lemma StatusAfterSave(item: Item, q: Query, now: int)
    requires Truthy(ParseParams(q).floor)
    ensures var p := ParseParams(q);
      StatusText(Read(Saved(item, p, now))) == StatusLine(p.garage, p.floor, p.stair)
  {
  }

  /**
   * No spot is saved exactly when the query has no floor, or its first floor
   * value is empty (`?floor=`).
   */
  lemma NoFloorNoSave(q: Query)
    ensures !Truthy(ParseParams(q).floor) <==>
      (forall i :: 0 <= i < |q| ==> q[i].0 != "floor") ||
      (exists i :: 0 <= i < |q| && q[i] == ("floor", "") && forall j :: 0 <= j < i ==> q[j].0 != "floor")
  {
    var v := ParseParams(q).floor;
    if v.Str? {
      var k :| 0 <= k < |q| && q[k].0 == "floor" && v.s == q[k].1 && forall j :: 0 <= j < k ==> q[j].0 != "floor";
      if v.s == "" {
        assert q[k] == ("floor", "");
      } else {
        forall i | 0 <= i < |q| && q[i].0 == "floor" && (forall j :: 0 <= j < i ==> q[j].0 != "floor")
          ensures q[i].1 != ""
        {
          assert i == k;
        }
      }
    }
  }

  // ---------------------------------------------------------------- several saves

  /** The item after saving each (params, time) pair in turn, first pair first. */
  function SaveAll(item: Item, saves: seq<(Params, int)>): Item
    decreases |saves|
  {
    if saves == [] then item else SaveAll(Saved(item, saves[0].0, saves[0].1), saves[1..])
  }

  /** The stamped spots of `saves`, last save first. */
  function NewestFirst(saves: seq<(Params, int)>): (spots: seq<SavedSpot>)
    ensures |spots| == |saves|
    ensures forall i :: 0 <= i < |saves| ==> spots[i] == Stamp(saves[|saves| - 1 - i].0, saves[|saves| - 1 - i].1)
  {
    if saves == [] then []
    else
      var last := saves[|saves| - 1];
      [Stamp(last.0, last.1)] + NewestFirst(saves[..|saves| - 1])
  }

  /** The first save comes last in the newest-first list, after all the later saves. */
  lemma NewestFirstPeel(saves: seq<(Params, int)>)
    requires saves != []
    ensures NewestFirst(saves) == NewestFirst(saves[1..]) + [Stamp(saves[0].0, saves[0].1)]
  {
    var a := NewestFirst(saves);
    var b := NewestFirst(saves[1..]) + [Stamp(saves[0].0, saves[0].1)];
    assert |a| == |b|;
    forall i | 0 <= i < |a|
      ensures a[i] == b[i]
    {
      if i < |saves| - 1 {
        assert saves[1..][|saves| - 2 - i] == saves[|saves| - 1 - i];
      }
    }
  }

  /**
   * After any sequence of saves the history holds them newest first,
   * followed by whatever was stored before; nothing is lost or reordered.
   */
  lemma {:induction false} HistoryNewestFirst(item: Item, saves: seq<(Params, int)>)
    ensures SaveAll(item, saves).SpotArray? || saves == []
    ensures Read(SaveAll(item, saves)) == NewestFirst(saves) + Read(item)
    decreases |saves|
  {
    if saves != [] {
      var stamp := Stamp(saves[0].0, saves[0].1);
      var first := Saved(item, saves[0].0, saves[0].1);
      HistoryNewestFirst(first, saves[1..]);
      NewestFirstPeel(saves);
      assert Read(first) == [stamp] + Read(item);
      assert SaveAll(item, saves) == SaveAll(first, saves[1..]);
      var rest := NewestFirst(saves[1..]);
      assert Read(SaveAll(item, saves)) == rest + ([stamp] + Read(item));
      assert rest + ([stamp] + Read(item)) == (rest + [stamp]) + Read(item);
    }
  }

  /** After at least one save the status shows the last one. */
  lemma StatusShowsLastSave(item: Item, saves: seq<(Params, int)>)
    requires saves != []
    ensures var last := saves[|saves| - 1].0;
      StatusText(Read(SaveAll(item, saves))) == StatusLine(last.garage, last.floor, last.stair)
  {
    HistoryNewestFirst(item, saves);
  }
}
