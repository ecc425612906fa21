/** JSON::Group: a titled collection of datasets loaded from, and written
    back to, a JSON object of the project file. Datasets are opaque here:
    Dataset::read and Dataset::serialize are parameters of the operations. */
module JsonGroup {
  import opened Wrappers
  import opened Json
  import opened Whitespace

  /** Dataset::read on a dataset built as Dataset(groupId, index): the
      dataset it fills in when it accepts the object, None when it refuses. */
  type DatasetReader<D> = (int, int, Object) -> Option<D>

  /** SAFE_READ: the object's value for key when present, else the default. */
  function SafeRead(obj: Object, key: string, default: Json): (v: Json)
    ensures key in obj ==> v == obj[key]
    ensures key !in obj ==> v == default
  {
    if key in obj then obj[key] else default
  }

  /** The raw title text, before simplification. */
  function TitleText(obj: Object): string {
    ToText(SafeRead(obj, "title", Str("")))
  }

  function ReadTitle(obj: Object): string {
    Simplified(TitleText(obj))
  }

  function ReadWidget(obj: Object): string {
    Simplified(ToText(SafeRead(obj, "widget", Str(""))))
  }

  /** object.value("datasets").toArray() */
  function DatasetEntries(obj: Object): seq<Json> {
    ToArray(Value(obj, "datasets"))
  }

  /** The checks read makes before it touches the group. */
  predicate HeaderAccepted(obj: Object) {
    obj != map[] && ReadTitle(obj) != "" && DatasetEntries(obj) != []
  }

  /** The dataset that array entry i contributes: entries that are not
      objects, empty objects and objects Dataset::read refuses give None. */
  function Entry<D>(groupId: int, entries: seq<Json>, reader: DatasetReader<D>, i: nat): Option<D>
    requires i < |entries|
  {
    var o := ToObject(entries[i]);
    if o != map[] then reader(groupId, i, o) else None
  }

  /** The datasets kept from the first n entries, in array order. */
  function Kept<D>(groupId: int, entries: seq<Json>, reader: DatasetReader<D>, n: nat): seq<D>
    requires n <= |entries|
  {
    if n == 0 then []
    else
      var e := Entry(groupId, entries, reader, n - 1);
      Kept(groupId, entries, reader, n - 1) + (if e.Some? then [e.value] else [])
  }

  /** The positions among the first n entries that contribute a dataset. */
  function KeptIndices<D>(groupId: int, entries: seq<Json>, reader: DatasetReader<D>, n: nat): seq<nat>
    requires n <= |entries|
  {
    if n == 0 then []
    else
      KeptIndices(groupId, entries, reader, n - 1)
        + (if Entry(groupId, entries, reader, n - 1).Some? then [n - 1] else [])
  }

  predicate StrictlyIncreasing(xs: seq<nat>) {
    forall a, b :: 0 <= a < b < |xs| ==> xs[a] < xs[b]
  }

  /** The kept positions are exactly the accepting entries, in increasing
      order, and the kept datasets are what those entries produced. */
  lemma KeptExactly<D>(groupId: int, entries: seq<Json>, reader: DatasetReader<D>, n: nat)
    requires n <= |entries|
    ensures var idx := KeptIndices(groupId, entries, reader, n);
      && StrictlyIncreasing(idx)
      && (forall i: nat :: i in idx <==> i < n && Entry(groupId, entries, reader, i).Some?)
      && |Kept(groupId, entries, reader, n)| == |idx|
      && forall k :: 0 <= k < |idx| ==>
           idx[k] < |entries| && Entry(groupId, entries, reader, idx[k]) == Some(Kept(groupId, entries, reader, n)[k])
  {
    KeptIndicesBelow(groupId, entries, reader, n);
    KeptIndicesIncreasing(groupId, entries, reader, n);
    KeptIndicesMembers(groupId, entries, reader, n);
    KeptMatches(groupId, entries, reader, n);
  }

  lemma {:induction false} KeptIndicesBelow<D>(groupId: int, entries: seq<Json>, reader: DatasetReader<D>, n: nat)
    requires n <= |entries|
    ensures forall k :: 0 <= k < |KeptIndices(groupId, entries, reader, n)| ==> KeptIndices(groupId, entries, reader, n)[k] < n
  {
    if n > 0 {
      KeptIndicesBelow(groupId, entries, reader, n - 1);
    }
  }

  lemma {:induction false} KeptIndicesIncreasing<D>(groupId: int, entries: seq<Json>, reader: DatasetReader<D>, n: nat)
    requires n <= |entries|
    ensures StrictlyIncreasing(KeptIndices(groupId, entries, reader, n))
  {
    if n > 0 {
      KeptIndicesIncreasing(groupId, entries, reader, n - 1);
      KeptIndicesBelow(groupId, entries, reader, n - 1);
    }
  }

  lemma {:induction false} KeptIndicesMembers<D>(groupId: int, entries: seq<Json>, reader: DatasetReader<D>, n: nat)
    requires n <= |entries|
    ensures forall i: nat :: i in KeptIndices(groupId, entries, reader, n) <==> i < n && Entry(groupId, entries, reader, i).Some?
  {
    if n > 0 {
      KeptIndicesMembers(groupId, entries, reader, n - 1);
    }
  }

  lemma {:induction false} KeptMatches<D>(groupId: int, entries: seq<Json>, reader: DatasetReader<D>, n: nat)
    requires n <= |entries|
    ensures var idx := KeptIndices(groupId, entries, reader, n);
      && |Kept(groupId, entries, reader, n)| == |idx|
      && forall k :: 0 <= k < |idx| ==>
           idx[k] < |entries| && Entry(groupId, entries, reader, idx[k]) == Some(Kept(groupId, entries, reader, n)[k])
  {
    if n > 0 {
      KeptMatches(groupId, entries, reader, n - 1);
      KeptIndicesBelow(groupId, entries, reader, n - 1);
    }
  }

  /** Some dataset is kept from the first n entries exactly when one of them
      accepts. */
  lemma {:induction false} KeptNonEmpty<D>(groupId: int, entries: seq<Json>, reader: DatasetReader<D>, n: nat)
    requires n <= |entries|
    ensures |Kept(groupId, entries, reader, n)| > 0 <==> exists i :: 0 <= i < n && Entry(groupId, entries, reader, i).Some?
  {
    if n > 0 {
      KeptNonEmpty(groupId, entries, reader, n - 1);
      if Entry(groupId, entries, reader, n - 1).Some? {
        assert 0 <= n - 1 < n;
      }
    }
  }

  /** The abstract state of a group. */
  datatype GroupState<D> = GroupState(groupId: int, title: string, widget: string, datasets: seq<D>)

  /** Group::read as a function of the state before the call: the result
      and the state after it. */
  function ReadGroup<D>(s: GroupState<D>, obj: Object, reader: DatasetReader<D>): (bool, GroupState<D>) {
    if HeaderAccepted(obj) then
      var entries := DatasetEntries(obj);
      var kept := Kept(s.groupId, entries, reader, |entries|);
      (|kept| > 0, GroupState(s.groupId, ReadTitle(obj), ReadWidget(obj), kept))
    else (false, s)
  }

  /** An empty object, a missing, non-string or blank title, or a missing,
      non-array or empty datasets array: read fails and nothing changes. */
  lemma RejectsBadHeader<D>(s: GroupState<D>, obj: Object, reader: DatasetReader<D>)
    requires || obj == map[]
             || (forall k :: 0 <= k < |TitleText(obj)| ==> IsSpace(TitleText(obj)[k]))
             || DatasetEntries(obj) == []
    ensures ReadGroup(s, obj, reader) == (false, s)
  {
    SimplifiedEmpty(TitleText(obj));
  }

  /** Once the header is accepted, title and widget are the simplified
      strings, the group id is kept, and the old datasets are replaced by
      exactly the accepting entries, in array order, whatever the result. */
  lemma AcceptedHeaderReplacesDatasets<D>(s: GroupState<D>, obj: Object, reader: DatasetReader<D>)
    requires HeaderAccepted(obj)
    ensures var (ok, t) := ReadGroup(s, obj, reader);
      var entries := DatasetEntries(obj);
      var idx := KeptIndices(s.groupId, entries, reader, |entries|);
      && t.groupId == s.groupId
      && t.title == Simplified(TitleText(obj)) && t.title != ""
      && t.widget == ReadWidget(obj)
      && StrictlyIncreasing(idx)
      && (forall i: nat :: i in idx <==> i < |entries| && Entry(s.groupId, entries, reader, i).Some?)
      && |t.datasets| == |idx|
      && forall k :: 0 <= k < |idx| ==> idx[k] < |entries| && Entry(s.groupId, entries, reader, idx[k]) == Some(t.datasets[k])
  {
    var entries := DatasetEntries(obj);
    KeptExactly(s.groupId, entries, reader, |entries|);
  }

  /** read reports success exactly when the header is accepted and at least
      one entry of the array produced a dataset. */
  lemma ReadSucceedsIff<D>(s: GroupState<D>, obj: Object, reader: DatasetReader<D>)
    ensures ReadGroup(s, obj, reader).0 <==>
      HeaderAccepted(obj)
      && exists i :: 0 <= i < |DatasetEntries(obj)| && Entry(s.groupId, DatasetEntries(obj), reader, i).Some?
  {
    var entries := DatasetEntries(obj);
    KeptNonEmpty(s.groupId, entries, reader, |entries|);
  }

  /** Group::serialize on a state: title and widget simplified, one dataset
      entry per dataset, in order. */
  function SerializeGroup<D>(s: GroupState<D>, writer: D -> Json): (j: Json)
    ensures j.Obj? && j.fields.Keys == {"title", "widget", "datasets"}
    ensures j.fields["title"] == Str(Simplified(s.title))
    ensures j.fields["widget"] == Str(Simplified(s.widget))
    ensures j.fields["datasets"].Arr? && |j.fields["datasets"].items| == |s.datasets|
    ensures forall k :: 0 <= k < |s.datasets| ==> j.fields["datasets"].items[k] == writer(s.datasets[k])
  {
    var ds := s.datasets;
    Obj(map["title" := Str(Simplified(s.title)),
            "widget" := Str(Simplified(s.widget)),
            "datasets" := Arr(seq(|ds|, k requires 0 <= k < |ds| => writer(ds[k])))])
  }

  /** After a read that accepted the header, serialize writes back exactly
      the title and widget that were stored. */
  lemma SerializeAfterRead<D>(s: GroupState<D>, obj: Object, reader: DatasetReader<D>, writer: D -> Json)
    requires HeaderAccepted(obj)
    ensures var j := SerializeGroup(ReadGroup(s, obj, reader).1, writer);
      j.fields["title"] == Str(ReadTitle(obj)) && j.fields["widget"] == Str(ReadWidget(obj))
  {
    SimplifiedIdempotent(TitleText(obj));
    SimplifiedIdempotent(ToText(SafeRead(obj, "widget", Str(""))));
  }

  /** Reading back what serialize wrote restores the group, provided the
      title and widget are already simplified, the title is not empty, and
      Dataset::read accepts each serialized dataset at its own position. */
  lemma {:induction false} ReadSerialized<D>(s: GroupState<D>, writer: D -> Json, reader: DatasetReader<D>)
    requires s.title != "" && Simplified(s.title) == s.title && Simplified(s.widget) == s.widget
    requires |s.datasets| > 0
    requires forall k :: 0 <= k < |s.datasets| ==>
      writer(s.datasets[k]).Obj? && writer(s.datasets[k]).fields != map[]
      && reader(s.groupId, k, writer(s.datasets[k]).fields) == Some(s.datasets[k])
    ensures ReadGroup(s, SerializeGroup(s, writer).fields, reader) == (true, s)
  {
    var obj := SerializeGroup(s, writer).fields;
    var entries := DatasetEntries(obj);
    assert entries == obj["datasets"].items;
    assert ReadTitle(obj) == s.title;
    assert ReadWidget(obj) == s.widget;
    assert "title" in obj;
    assert |entries| == |s.datasets|;
    KeptAll(s, writer, reader, |s.datasets|);
    assert s.datasets[..|s.datasets|] == s.datasets;
    assert HeaderAccepted(obj);
  }

  /** Serialize, read back and serialize again writes what the first
      serialize wrote, for any title that is not blank: read only simplifies
      title and widget, which serialize has already done. */
  lemma ReadSerializedNormalizes<D>(s: GroupState<D>, writer: D -> Json, reader: DatasetReader<D>)
    requires Simplified(s.title) != "" && |s.datasets| > 0
    requires forall k :: 0 <= k < |s.datasets| ==>
      writer(s.datasets[k]).Obj? && writer(s.datasets[k]).fields != map[]
      && reader(s.groupId, k, writer(s.datasets[k]).fields) == Some(s.datasets[k])
    ensures var t := GroupState(s.groupId, Simplified(s.title), Simplified(s.widget), s.datasets);
      ReadGroup(s, SerializeGroup(s, writer).fields, reader) == (true, t)
    ensures SerializeGroup(ReadGroup(s, SerializeGroup(s, writer).fields, reader).1, writer) == SerializeGroup(s, writer)
  {
    var t := GroupState(s.groupId, Simplified(s.title), Simplified(s.widget), s.datasets);
    SimplifiedIdempotent(s.title);
    SimplifiedIdempotent(s.widget);
    assert SerializeGroup(t, writer) == SerializeGroup(s, writer);
    ReadSerialized(t, writer, reader);
  }

  lemma {:induction false} KeptAll<D>(s: GroupState<D>, writer: D -> Json, reader: DatasetReader<D>, n: nat)
    requires n <= |s.datasets|
    requires forall k :: 0 <= k < |s.datasets| ==>
      writer(s.datasets[k]).Obj? && writer(s.datasets[k]).fields != map[]
      && reader(s.groupId, k, writer(s.datasets[k]).fields) == Some(s.datasets[k])
    ensures var entries := SerializeGroup(s, writer).fields["datasets"].items;
      Kept(s.groupId, entries, reader, n) == s.datasets[..n]
  {
    if n > 0 {
      KeptAll(s, writer, reader, n - 1);
      assert s.datasets[..n] == s.datasets[..n - 1] + [s.datasets[n - 1]];
    }
  }

  /** The group object. The id never changes after construction; read
      replaces title, widget and datasets. */
  class Group<D> {
    var groupId: int
    var title: string
    var widget: string
    var datasets: seq<D>

    function State(): GroupState<D>
      reads this
    {
      GroupState(groupId, title, widget, datasets)
    }

    constructor(groupId: int)
      ensures State() == GroupState(groupId, "", "", [])
    {
      this.groupId := groupId;
      title := "";
      widget := "";
      datasets := [];
    }

    /** Group::read */
    method Read(obj: Object, reader: DatasetReader<D>) returns (ok: bool)
      modifies this
      ensures (ok, State()) == ReadGroup(old(State()), obj, reader)
      ensures HeaderAccepted(obj) ==> (ok <==> DatasetCount() > 0)
      ensures HeaderAccepted(obj) ==>
        var entries := DatasetEntries(obj);
        var idx := KeptIndices(groupId, entries, reader, |entries|);
        && |idx| == DatasetCount()
        && forall k :: 0 <= k < DatasetCount() ==>
             idx[k] < |entries| && Entry(groupId, entries, reader, idx[k]) == Some(GetDataset(k))
    {
      ok := false;
      if obj != map[] {
        var entries := ToArray(Value(obj, "datasets"));
        var t := Simplified(ToText(SafeRead(obj, "title", Str(""))));
        var w := Simplified(ToText(SafeRead(obj, "widget", Str(""))));
        if t != "" && entries != [] {
          title := t;
          widget := w;
          datasets := [];
          var i := 0;
          while i < |entries|
            invariant 0 <= i <= |entries|
            invariant groupId == old(groupId) && title == t && widget == w
            invariant datasets == Kept(groupId, entries, reader, i)
          {
            var o := ToObject(entries[i]);
            ghost var e := Entry(groupId, entries, reader, i);
            if o != map[] {
              var dataset := reader(groupId, i, o);
              assert e == dataset;
              if dataset.Some? {
                datasets := datasets + [dataset.value];
              }
            }
            i := i + 1;
          }
          assert entries == DatasetEntries(obj) && t == ReadTitle(obj) && w == ReadWidget(obj);
          KeptExactly(groupId, entries, reader, |entries|);
          ok := |datasets| > 0;
        }
      }
    }

    /** Group::serialize */
    function Serialize(writer: D -> Json): Json
      reads this
    {
      SerializeGroup(State(), writer)
    }

    function GroupId(): int
      reads this
    {
      groupId
    }

    function Title(): string
      reads this
    {
      title
    }

    function Widget(): string
      reads this
    {
      widget
    }

    /** Group::datasetCount: the number of datasets the group holds. */
    function DatasetCount(): (n: nat)
      reads this
      ensures n == |datasets|
    {
      |datasets|
    }

    function Datasets(): seq<D>
      reads this
    {
      datasets
    }

    /** Group::getDataset: QVector::at, defined for valid positions only. */
    function GetDataset(index: int): (d: D)
      reads this
      requires 0 <= index < |datasets|
      ensures d == datasets[index] && d in Datasets()
    {
      datasets[index]
    }
  }
}
