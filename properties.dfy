/**
 * The property API (src/api/properties.ts): the search query built from a filter
 * record, the subtype URL, the multipart body of a new property and the JSON body of
 * an update.  Each operation yields the `Call` it hands to `fetchClient`.
 */
module Properties {
  import opened Outcomes
  import Json
  import opened FormEncoding
  import opened HttpClient

  /** `PropertyFilters`; an absent field is `None`.  Prices and room counts are integers. */
  datatype PropertyFilters = PropertyFilters(
    minPrice: Option<int>,
    maxPrice: Option<int>,
    minRooms: Option<int>,
    zone: Option<string>,
    status: Option<string>,
    source: Option<string>,
    search: Option<string>)

  const NoFilters: PropertyFilters := PropertyFilters(None, None, None, None, None, None, None)

  /** A numeric filter is sent when it is truthy: present and not 0. */
  predicate NumberSet(n: Option<int>) { n.Some? && n.value != 0 }

  /** A text filter is sent when it is truthy: present and not empty. */
  predicate TextSet(s: Option<string>) { s.Some? && s.value != "" }

  /** `status` and `source` are also dropped when they are `'all'`. */
  predicate ChoiceSet(s: Option<string>) { TextSet(s) && s.value != "all" }

  function NumberParam(key: string, n: Option<int>): Option<Pair> {
    if NumberSet(n) then Some((key, Json.IntText(n.value))) else None
  }

  function TextParam(key: string, s: Option<string>): Option<Pair> {
    if TextSet(s) then Some((key, s.value)) else None
  }

  function ChoiceParam(key: string, s: Option<string>): Option<Pair> {
    if ChoiceSet(s) then Some((key, s.value)) else None
  }

  /** One guarded `append`: the pair is added when its guard held. */
  function AppendIf(ps: seq<Pair>, c: Option<Pair>): seq<Pair> {
    if c.Some? then ps + [c.value] else ps
  }

  /** The pairs `getProperties` appends, in the order it appends them. */
  function FilterPairs(filters: Option<PropertyFilters>): seq<Pair> {
    if filters.None? then []
    else
      var f := filters.value;
      AppendIf(AppendIf(AppendIf(AppendIf(AppendIf(AppendIf(AppendIf([],
        NumberParam("minBudget", f.minPrice)), NumberParam("maxBudget", f.maxPrice)),
        NumberParam("minRooms", f.minRooms)), TextParam("address", f.zone)),
        ChoiceParam("status", f.status)), TextParam("q", f.search)), ChoiceParam("source", f.source))
  }

  const SearchPath: string := "/properties/search?"

  /** The `URLSearchParams` of `getProperties(filters)`: one `append` per truthy filter. */
  method FilterParams(filters: Option<PropertyFilters>) returns (params: SearchParams)
    ensures fresh(params)
    ensures params.pairs == FilterPairs(filters)
  {
    params := new SearchParams();
    if filters.Some? {
      var f := filters.value;
      ghost var c0, c1, c2, c3 := NumberParam("minBudget", f.minPrice), NumberParam("maxBudget", f.maxPrice),
        NumberParam("minRooms", f.minRooms), TextParam("address", f.zone);
      ghost var c4, c5, c6 := ChoiceParam("status", f.status), TextParam("q", f.search),
        ChoiceParam("source", f.source);
      if NumberSet(f.minPrice) { params.Append("minBudget", Json.IntText(f.minPrice.value)); }
      assert params.pairs == AppendIf([], c0);
      ghost var s0 := params.pairs;
      if NumberSet(f.maxPrice) { params.Append("maxBudget", Json.IntText(f.maxPrice.value)); }
      assert params.pairs == AppendIf(s0, c1);
      ghost var s1 := params.pairs;
      if NumberSet(f.minRooms) { params.Append("minRooms", Json.IntText(f.minRooms.value)); }
      assert params.pairs == AppendIf(s1, c2);
      ghost var s2 := params.pairs;
      if TextSet(f.zone) { params.Append("address", f.zone.value); }
      assert params.pairs == AppendIf(s2, c3);
      ghost var s3 := params.pairs;
      if TextSet(f.status) && f.status.value != "all" { params.Append("status", f.status.value); }
      assert params.pairs == AppendIf(s3, c4);
      ghost var s4 := params.pairs;
      if TextSet(f.search) { params.Append("q", f.search.value); }
      assert params.pairs == AppendIf(s4, c5);
      ghost var s5 := params.pairs;
      if TextSet(f.source) && f.source.value != "all" { params.Append("source", f.source.value); }
      assert params.pairs == AppendIf(s5, c6);
    }
  }

  /** `getProperties(filters)`: the serialized parameters after `/properties/search?`. */
  method GetProperties(filters: Option<PropertyFilters>) returns (call: Call)
    ensures call == Call(SearchPath + Serialize(FilterPairs(filters)), None)
  {
    var params := FilterParams(filters);
    call := Call(SearchPath + params.ToString(), None);
  }

  /** The position of each key in the order `getProperties` appends them. */
  function Rank(key: string): int {
    if key == "minBudget" then 0
    else if key == "maxBudget" then 1
    else if key == "minRooms" then 2
    else if key == "address" then 3
    else if key == "status" then 4
    else if key == "q" then 5
    else if key == "source" then 6
    else 7
  }

  lemma RankValues()
    ensures Rank("minBudget") == 0 && Rank("maxBudget") == 1 && Rank("minRooms") == 2
    ensures Rank("address") == 3 && Rank("status") == 4 && Rank("q") == 5 && Rank("source") == 6
  {
  }

  /** Keys strictly follow the fixed order, so none repeats. */
  predicate InOrder(ps: seq<Pair>) {
    forall i, j :: 0 <= i < j < |ps| ==> Rank(ps[i].0) < Rank(ps[j].0)
  }

  predicate RanksBelow(ps: seq<Pair>, r: int) {
    forall i :: 0 <= i < |ps| ==> Rank(ps[i].0) < r
  }

  /** A guarded append of a key of rank `r` after keys of lower rank keeps the order. */
  lemma AppendIfInOrder(ps: seq<Pair>, c: Option<Pair>, r: int)
    requires InOrder(ps) && RanksBelow(ps, r)
    requires c.Some? ==> Rank(c.value.0) == r
    ensures InOrder(AppendIf(ps, c)) && RanksBelow(AppendIf(ps, c), r + 1)
  {
    if c.Some? {
      var qs := ps + [c.value];
      forall i, j | 0 <= i < j < |qs| ensures Rank(qs[i].0) < Rank(qs[j].0) {
        assert qs[i] == ps[i];
        if j < |ps| { assert qs[j] == ps[j]; }
      }
      forall i | 0 <= i < |qs| ensures Rank(qs[i].0) < r + 1 {
        if i < |ps| { assert qs[i] == ps[i]; }
      }
    }
  }

  /** The parameters always come in the order minBudget, maxBudget, minRooms,
      address, status, q, source, each key at most once. */
  lemma FilterPairsInOrder(filters: Option<PropertyFilters>)
    ensures InOrder(FilterPairs(filters))
  {
    if filters.Some? {
      var f := filters.value;
      RankValues();
      var a0 := AppendIf([], NumberParam("minBudget", f.minPrice));
      AppendIfInOrder([], NumberParam("minBudget", f.minPrice), 0);
      var a1 := AppendIf(a0, NumberParam("maxBudget", f.maxPrice));
      AppendIfInOrder(a0, NumberParam("maxBudget", f.maxPrice), 1);
      var a2 := AppendIf(a1, NumberParam("minRooms", f.minRooms));
      AppendIfInOrder(a1, NumberParam("minRooms", f.minRooms), 2);
      var a3 := AppendIf(a2, TextParam("address", f.zone));
      AppendIfInOrder(a2, TextParam("address", f.zone), 3);
      var a4 := AppendIf(a3, ChoiceParam("status", f.status));
      AppendIfInOrder(a3, ChoiceParam("status", f.status), 4);
      var a5 := AppendIf(a4, TextParam("q", f.search));
      AppendIfInOrder(a4, TextParam("q", f.search), 5);
      AppendIfInOrder(a5, ChoiceParam("source", f.source), 6);
    }
  }

  lemma AppendIfMember(ps: seq<Pair>, c: Option<Pair>, p: Pair)
    ensures p in AppendIf(ps, c) <==> p in ps || c == Some(p)
  {
  }

  /** A pair is sent exactly when one of the seven guarded appends produced it, and
      then its key's rank says which one. */
  lemma FilterPairsMember(f: PropertyFilters, p: Pair)
    ensures p in FilterPairs(Some(f)) <==>
      (Rank(p.0) == 0 && NumberParam("minBudget", f.minPrice) == Some(p)) ||
      (Rank(p.0) == 1 && NumberParam("maxBudget", f.maxPrice) == Some(p)) ||
      (Rank(p.0) == 2 && NumberParam("minRooms", f.minRooms) == Some(p)) ||
      (Rank(p.0) == 3 && TextParam("address", f.zone) == Some(p)) ||
      (Rank(p.0) == 4 && ChoiceParam("status", f.status) == Some(p)) ||
      (Rank(p.0) == 5 && TextParam("q", f.search) == Some(p)) ||
      (Rank(p.0) == 6 && ChoiceParam("source", f.source) == Some(p))
  {
    RankValues();
    var c0, c1, c2, c3 := NumberParam("minBudget", f.minPrice), NumberParam("maxBudget", f.maxPrice),
      NumberParam("minRooms", f.minRooms), TextParam("address", f.zone);
    var c4, c5, c6 := ChoiceParam("status", f.status), TextParam("q", f.search), ChoiceParam("source", f.source);
    var a0 := AppendIf([], c0);
    var a1 := AppendIf(a0, c1);
    var a2 := AppendIf(a1, c2);
    var a3 := AppendIf(a2, c3);
    var a4 := AppendIf(a3, c4);
    var a5 := AppendIf(a4, c5);
    AppendIfMember([], c0, p);
    AppendIfMember(a0, c1, p);
    AppendIfMember(a1, c2, p);
    AppendIfMember(a2, c3, p);
    AppendIfMember(a3, c4, p);
    AppendIfMember(a4, c5, p);
    AppendIfMember(a5, c6, p);
  }

  /** Which key each filter is sent under, and when: a falsy value is never sent,
      `'all'` is never sent for status or source, and a sent value is the filter's own. */
  lemma FilterPairsSendExactly(f: PropertyFilters, v: string)
    ensures ("minBudget", v) in FilterPairs(Some(f)) <==> NumberSet(f.minPrice) && v == Json.IntText(f.minPrice.value)
    ensures ("maxBudget", v) in FilterPairs(Some(f)) <==> NumberSet(f.maxPrice) && v == Json.IntText(f.maxPrice.value)
    ensures ("minRooms", v) in FilterPairs(Some(f)) <==> NumberSet(f.minRooms) && v == Json.IntText(f.minRooms.value)
    ensures ("address", v) in FilterPairs(Some(f)) <==> f.zone == Some(v) && v != ""
    ensures ("status", v) in FilterPairs(Some(f)) <==> f.status == Some(v) && v != "" && v != "all"
    ensures ("q", v) in FilterPairs(Some(f)) <==> f.search == Some(v) && v != ""
    ensures ("source", v) in FilterPairs(Some(f)) <==> f.source == Some(v) && v != "" && v != "all"
  {
    RankValues();
    FilterPairsMember(f, ("minBudget", v));
    FilterPairsMember(f, ("maxBudget", v));
    FilterPairsMember(f, ("minRooms", v));
    FilterPairsMember(f, ("address", v));
    FilterPairsMember(f, ("status", v));
    FilterPairsMember(f, ("q", v));
    FilterPairsMember(f, ("source", v));
  }

  /** Without filters, or with every filter falsy, the path is `/properties/search?`. */
  lemma NoFiltersEmptyQuery()
    ensures FilterPairs(None) == [] && FilterPairs(Some(NoFilters)) == []
    ensures SearchPath + Serialize(FilterPairs(Some(NoFilters))) == "/properties/search?"
  {
  }

  /** The backend's form-urlencoded parser reads back exactly the pairs appended. */
  lemma FilterQueryReadsBack(filters: Option<PropertyFilters>)
    ensures ParseQuery(Serialize(FilterPairs(filters))) == Some(FilterPairs(filters))
  {
    QueryRoundTrip(FilterPairs(filters));
  }

  lemma AddressKeySafe()
    ensures forall i :: 0 <= i < |"address"| ==> FormSafe("address"[i])
  {
  }

  lemma AddressKeyPlain()
    ensures FormEncode("address") == "address"
  {
    AddressKeySafe();
    FormEncodeSafe("address");
  }

  /** With only a zone set, the query is that one pair. */
  lemma ZoneOnlyPairs(z: string)
    requires z != ""
    ensures FilterPairs(Some(NoFilters.(zone := Some(z)))) == [("address", z)]
  {
  }

  /** Two plain words separated by a space are serialized with `+` between them. */
  lemma TwoWordsEncode(a: string, b: string)
    requires forall i :: 0 <= i < |a| ==> FormSafe(a[i])
    requires forall i :: 0 <= i < |b| ==> FormSafe(b[i])
    ensures FormEncode(a + " " + b) == a + "+" + b
  {
    FormEncodeSafe(a);
    FormEncodeSafe(b);
    FormEncodeConcat(a + " ", b);
    FormEncodeConcat(a, " ");
    FormEncodeSpace();
  }

  lemma SinglePairQuery(k: string, v: string, ek: string, ev: string)
    requires FormEncode(k) == ek && FormEncode(v) == ev
    ensures Serialize([(k, v)]) == ek + "=" + ev
  {
  }

  /** A zone alone is sent as `address=` and its encoding. */
  lemma ZoneOnlyQuery(z: string, ez: string)
    requires z != "" && FormEncode(z) == ez
    ensures Serialize(FilterPairs(Some(NoFilters.(zone := Some(z))))) == "address=" + ez
  {
    ZoneOnlyPairs(z);
    AddressKeyPlain();
    SinglePairQuery("address", z, "address", ez);
    assert "address" + "=" == "address=";
  }

  /** A zone of two plain words is sent alone, as `address=` and the words joined by
      `+` (a "Golden Mile" zone gives `address=Golden+Mile`). */
  lemma TwoWordZoneQuery(a: string, b: string)
    requires forall i :: 0 <= i < |a| ==> FormSafe(a[i])
    requires forall i :: 0 <= i < |b| ==> FormSafe(b[i])
    ensures Serialize(FilterPairs(Some(NoFilters.(zone := Some(a + " " + b))))) == "address=" + (a + "+" + b)
  {
    TwoWordsEncode(a, b);
    ZoneOnlyQuery(a + " " + b, a + "+" + b);
  }

  /** `getProperty(id)`. */
  function GetProperty(id: string): Call {
    Call("/properties/" + id, None)
  }

  /** The multipart body `createProperty` builds and the options it passes. */
  function CreatePropertyCall(data: seq<Json.Member>, imageFile: Option<string>): Call {
    var entries := [FormEntry("data", Field(Json.Stringify(data)))]
      + (if imageFile.Some? then [FormEntry("image", File(imageFile.value))] else []);
    Call("/properties", Some(RequestInit(Some("POST"), Multipart(entries), Some(map[]))))
  }

  /** `createProperty(data, imageFile)`: a `FormData` with the JSON of the record under
      `data` and, when a file is given, the file under `image`. */
  method CreateProperty(data: seq<Json.Member>, imageFile: Option<string>) returns (call: Call)
    ensures call == CreatePropertyCall(data, imageFile)
  {
    var form := new FormData();
    form.Append("data", Field(Json.Stringify(data)));
    ghost var first := [FormEntry("data", Field(Json.Stringify(data)))];
    assert form.entries == first;
    if imageFile.Some? {
      form.Append("image", File(imageFile.value));
      assert form.entries == first + [FormEntry("image", File(imageFile.value))];
    } else {
      assert form.entries == first + [];
    }
    call := Call("/properties", Some(RequestInit(Some("POST"), Multipart(form.entries), Some(map[]))));
  }

  /** The body always starts with a `data` field that parses back to the record, and
      has an `image` entry exactly when a file is given. */
  lemma CreatePropertyBody(data: seq<Json.Member>, imageFile: Option<string>)
    ensures var call := CreatePropertyCall(data, imageFile);
      call.options.Some? && call.options.value.body.Multipart? &&
      var entries := call.options.value.body.entries;
      1 <= |entries| && entries[0].name == "data" && entries[0].value.Field? &&
      Json.Parse(entries[0].value.text) == Some(Json.ObjectDoc(data)) &&
      (|entries| == 2 <==> imageFile.Some?) &&
      (imageFile.Some? ==> entries[1] == FormEntry("image", File(imageFile.value)))
  {
    Json.StringifyRoundTrip(data);
  }

  /** As written, `createProperty`'s multipart body goes out labelled as JSON; with the
      corrected merge the request carries no `Content-Type`. */
  lemma CreatePropertyContentType(base: string, data: seq<Json.Member>, imageFile: Option<string>)
    ensures BuildRequest(base, CreatePropertyCall(data, imageFile)).headers[ContentType] == ApplicationJson
    ensures ContentType !in BuildRequestFixed(base, CreatePropertyCall(data, imageFile)).headers
  {
  }

  const SubtypesPath: string := "/property-subtypes"

  /** `getSubtypes(type)`: the type is appended raw, without encoding, when truthy. */
  method GetSubtypes(subtype: Option<string>) returns (call: Call)
    ensures TextSet(subtype) ==> call == Call(SubtypesPath + "?type=" + subtype.value, None)
    ensures !TextSet(subtype) ==> call == Call(SubtypesPath, None)
  {
    var url := SubtypesPath;
    if TextSet(subtype) {
      url := url + "?type=" + subtype.value;
    }
    call := Call(url, None);
  }

  /** Because the type is not encoded, an `&` inside it ends the `type` parameter: the
      first query segment holds only what precedes it. */
  lemma RawSubtypeCutAtAmpersand(before: string, after: string)
    requires '&' !in before
    ensures Split("type=" + before + "&" + after, '&')[0] == "type=" + before
  {
    assert '&' !in "type=" + before;
    SplitAfter("type=" + before, '&', after);
  }

  /** `updateProperty(id, data)`: a PUT whose body is the record's JSON. */
  function UpdateProperty(id: string, data: seq<Json.Member>): (call: Call)
    ensures call.endpoint == "/properties/" + id
    ensures call.options.Some? && call.options.value.verb == Some("PUT") && call.options.value.body.Text?
    ensures Json.Parse(call.options.value.body.text) == Some(Json.ObjectDoc(data))
    ensures BuildRequest(DefaultBaseUrl, call).headers[ContentType] == ApplicationJson
  {
    Json.StringifyRoundTrip(data);
    Call("/properties/" + id, Some(RequestInit(Some("PUT"), Text(Json.Stringify(data)), None)))
  }
}
