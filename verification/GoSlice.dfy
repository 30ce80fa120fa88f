/**
 A Go slice of containers: a header over a backing array, so that `append` may write in place or move to a new array,
 and a pointer taken into the slice before it moved goes on pointing at the old array.
 */
module GoSlice {
  import opened Workload

  /** `&s[i]`: one cell of a backing array. */
  datatype Pointer = Pointer(cells: array<Container>, at: nat)

  /** One step of the deletion: the container at `j` moves down to `kept` where it is kept. */
  function Shifted(a: seq<Container>, kept: nat, j: nat, name: string): seq<Container>
    requires kept <= j < |a|
  {
    if a[j].name != name then a[kept := a[j]] else a
  }

  lemma Shifts(a: seq<Container>, kept: nat, j: nat, n: nat, name: string)
    requires kept <= j < n <= |a|
    ensures
      var b, k := Shifted(a, kept, j, name), if a[j].name != name then kept + 1 else kept;
      b[..k] + Without(b[j + 1..n], name) == a[..kept] + Without(a[j..n], name)
  {
    var b, rest := Shifted(a, kept, j, name), Without(a[j + 1..n], name);
    assert a[j..n][1..] == a[j + 1..n] && b[j + 1..n] == a[j + 1..n];
    if a[j].name != name {
      assert b[..kept + 1] == a[..kept] + [a[j]];
      assert a[..kept] + [a[j]] + rest == a[..kept] + ([a[j]] + rest);
    }
  }

  class Slice {
    var cells: array<Container>
    var len: nat

    ghost predicate Valid()
      reads this
    {
      len <= cells.Length
    }

    ghost function Contents(): (r: seq<Container>)
      reads this, cells
      requires Valid()
      ensures |r| == len
    {
      cells[..len]
    }

    /** A slice holding `cs`, with room for `room` more. */
    constructor (cs: seq<Container>, room: nat)
      ensures Valid() && fresh(cells) && Contents() == cs && cells.Length == |cs| + room
    {
      var a := new Container[|cs| + room](_ => Empty(""));
      for i := 0 to |cs|
        invariant a[..i] == cs[..i]
      {
        a[i] := cs[i];
      }
      cells, len := a, |cs|;
    }

    /** append: in place where there is capacity, and otherwise into a larger array of the runtime's choosing. */
    method Append(c: Container)
      requires Valid()
      modifies this, cells
      ensures Valid() && Contents() == old(Contents()) + [c]
      ensures cells == old(cells) <==> old(len) < old(cells.Length)
      ensures cells != old(cells) ==> fresh(cells) && old(cells)[..] == old(cells[..])
    {
      if len < cells.Length {
        cells[len] := c;
      } else {
        var room :| 0 <= room;
        var a := new Container[len + 1 + room](_ => Empty(""));
        for i := 0 to len
          invariant cells == old(cells) && len == old(len) && cells[..] == old(cells[..])
          invariant a[..i] == cells[..i]
        {
          a[i] := cells[i];
        }
        a[len] := c;
        cells := a;
      }
      len := len + 1;
    }

    /** containerNamed: the cell of the first container of that name, appending an empty one where there is none. */
    method Named(name: string) returns (p: Pointer)
      requires Valid()
      modifies this, cells
      ensures Valid() && Contents() == Ensured(old(Contents()), name)
      ensures p == Pointer(cells, IndexOf(old(Contents()), name)) && p.at < len
      ensures cells == old(cells) || fresh(cells)
    {
      var i := 0;
      while i < len
        invariant i <= len && IndexOf(Contents(), name) == i + IndexOf(Contents()[i..], name)
        invariant cells == old(cells) && len == old(len) && cells[..] == old(cells[..])
      {
        if cells[i].name == name {
          return Pointer(cells, i);
        }
        assert Contents()[i..][1..] == Contents()[i + 1..];
        i := i + 1;
      }
      assert Contents()[i..] == [];
      Append(Empty(name));
      p := Pointer(cells, len - 1);
    }

    /** slices.DeleteFunc: the kept containers move down in place and the cells left over are cleared. */
    method Delete(name: string)
      requires Valid()
      modifies this`len, cells
      ensures Valid() && cells == old(cells)
      ensures Contents() == Without(old(Contents()), name)
    {
      var kept, j := 0, 0;
      while j < len
        invariant kept <= j <= len == old(len) && cells == old(cells)
        invariant cells[..][..kept] + Without(cells[..][j..len], name) == Without(old(Contents()), name)
      {
        ghost var before, at := cells[..], kept;
        Shifts(before, kept, j, len, name);
        if cells[j].name != name {
          cells[kept] := cells[j];
          kept := kept + 1;
        }
        assert cells[..] == Shifted(before, at, j, name);
        j := j + 1;
      }
      assert cells[..][j..len] == [];
      Clear(kept);
      len := kept;
    }

    /** clear(s[from:]) */
    method Clear(from: nat)
      requires Valid() && from <= len
      modifies cells
      ensures cells[..from] == old(cells[..from])
    {
      for i := from to len
        invariant cells[..from] == old(cells[..from])
      {
        cells[i] := Empty("");
      }
    }
  }

  /** Why the workspace is built last: a write through a pointer taken before an append reaches the slice if and only if
      the append found room, which is the runtime's to decide. */
  method WriteThroughEarlierPointer(s: Slice, p: Pointer, c: Container, appended: Container)
    requires s.Valid() && p.cells == s.cells && p.at < s.len && s.cells[p.at] != c
    modifies s, s.cells
    ensures s.Valid()
    ensures s.Contents() == (old(s.Contents()) + [appended])[p.at := c] <==> old(s.len) < old(s.cells.Length)
  {
    ghost var before := s.Contents();
    s.Append(appended);
    assert s.Contents()[p.at] == before[p.at];
    p.cells[p.at] := c;
    if s.cells != old(s.cells) {
      assert s.Contents()[p.at] == before[p.at];
    }
  }
}
