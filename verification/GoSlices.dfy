/** Go slices: a length over a shared array whose spare room an append may write to. */
module GoSlices {

  datatype Slice<T> = Slice(data: array<T>, len: nat) {
    predicate Valid() {
      len <= data.Length
    }

    function Spare(): nat
      requires Valid()
    {
      data.Length - len
    }

    function Contents(): seq<T>
      requires Valid()
      reads data
    {
      data[..len]
    }
  }

  /** The nil slice. */
  method Nil<T>() returns (s: Slice<T>)
    ensures s.Valid() && s.Contents() == [] && s.Spare() == 0
    ensures fresh(s.data)
  {
    var data := new T[0];
    s := Slice(data, 0);
  }

  /** append: in place when there is room, else into a bigger array of any size. What lies in the
      shared array beyond the result stays. */
  method Append<T(0)>(s: Slice<T>, xs: seq<T>) returns (r: Slice<T>)
    requires s.Valid()
    modifies s.data
    ensures r.Valid() && r.len == s.len + |xs|
    ensures r.Contents() == old(s.Contents()) + xs
    ensures |xs| <= s.Spare() ==>
      r.data == s.data && s.data[..] == old(s.data[..s.len]) + xs + old(s.data[s.len + |xs|..])
    ensures |xs| > s.Spare() ==> fresh(r.data) && s.data[..] == old(s.data[..])
  {
    if |xs| <= s.Spare() {
      forall i | 0 <= i < |xs| {
        s.data[s.len + i] := xs[i];
      }
      r := Slice(s.data, s.len + |xs|);
    } else {
      var capacity: nat :| capacity >= s.len + |xs|;
      var data := new T[capacity];
      forall i | 0 <= i < s.len {
        data[i] := s.data[i];
      }
      forall i | 0 <= i < |xs| {
        data[s.len + i] := xs[i];
      }
      r := Slice(data, s.len + |xs|);
    }
  }
}
