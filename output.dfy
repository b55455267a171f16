/** The result file: text lines in a fixed `Label: value` layout, appended to
    and never truncated. */
module Output {
  import opened Text

  /** One line written by `f.write("...\n")`, before rendering. */
  datatype Line =
    | Blank
    | Rule(width: nat)                                   // a run of dashes
    | Heading(number: int)                               // "Product <n>"
    | Field(indent: nat, key: string, value: string)     // "<spaces><key>: <value>"

  function Repeat(c: char, n: nat): (r: string)
    ensures |r| == n
    ensures forall k :: 0 <= k < n ==> r[k] == c
  {
    if n == 0 then [] else [c] + Repeat(c, n - 1)
  }

  function Render(l: Line): string
  {
    match l
    case Blank => ""
    case Rule(w) => Repeat('-', w)
    case Heading(n) => "Product " + IntToDecimal(n)
    case Field(i, key, value) => Repeat(' ', i) + key + ": " + value
  }

  function RenderAll(ls: seq<Line>): (r: seq<string>)
    ensures |r| == |ls|
  {
    seq(|ls|, k requires 0 <= k < |ls| => Render(ls[k]))
  }

  lemma RenderAllAppend(a: seq<Line>, b: seq<Line>)
    ensures RenderAll(a + b) == RenderAll(a) + RenderAll(b)
  {
  }

  lemma AppendAssoc<T>(a: seq<T>, b: seq<T>, c: seq<T>)
    ensures (a + b) + c == a + (b + c)
  {
  }

  lemma MiddleSlice<T>(a: seq<T>, b: seq<T>, c: seq<T>)
    ensures (a + b + c)[|a|..|a| + |b|] == b
  {
  }

  /** The labels of the `Field` lines, in order. */
  function Labels(ls: seq<Line>): seq<string>
  {
    if ls == [] then []
    else (if ls[0].Field? then [ls[0].key] else []) + Labels(ls[1..])
  }

  lemma {:induction false} LabelsAppend(a: seq<Line>, b: seq<Line>)
    ensures Labels(a + b) == Labels(a) + Labels(b)
  {
    if a != [] {
      assert (a + b)[1..] == a[1..] + b;
      LabelsAppend(a[1..], b);
    } else {
      assert a + b == b;
    }
  }

  /** The blocks of `xss` written one after another. */
  function Concat<T>(xss: seq<seq<T>>): seq<T>
  {
    if xss == [] then [] else xss[0] + Concat(xss[1..])
  }

  lemma {:induction false} ConcatAppend<T>(a: seq<seq<T>>, b: seq<seq<T>>)
    ensures Concat(a + b) == Concat(a) + Concat(b)
  {
    if a != [] {
      assert (a + b)[1..] == a[1..] + b;
      ConcatAppend(a[1..], b);
    } else {
      assert a + b == b;
    }
  }

  /** Blocks of equal size `m` take `m` lines each. */
  lemma {:induction false} ConcatLength<T>(xss: seq<seq<T>>, m: nat)
    requires forall i :: 0 <= i < |xss| ==> |xss[i]| == m
    ensures |Concat(xss)| == m * |xss|
  {
    if xss != [] {
      ConcatLength(xss[1..], m);
      assert m * |xss| == m + m * (|xss| - 1);
    }
  }

  /** Block `k` stands, whole and in place, between the blocks before it and
      the blocks after it. */
  lemma {:induction false} ConcatSplit<T>(xss: seq<seq<T>>, k: nat)
    requires k < |xss|
    ensures Concat(xss) == Concat(xss[..k]) + xss[k] + Concat(xss[k + 1..])
  {
    var tail := xss[k..];
    assert xss[..k] + tail == xss;
    ConcatAppend(xss[..k], tail);
    assert tail[0] == xss[k] && tail[1..] == xss[k + 1..];
    assert Concat(tail) == xss[k] + Concat(xss[k + 1..]);
  }

  /** After a header, block `k` of equal-sized blocks starts at `|head| + m * k`. */
  lemma ConcatBlockAt<T>(head: seq<T>, xss: seq<seq<T>>, m: nat, k: nat)
    requires forall i :: 0 <= i < |xss| ==> |xss[i]| == m
    requires k < |xss|
    ensures |head + Concat(xss)| >= |head| + m * k + m
    ensures (head + Concat(xss))[|head| + m * k..|head| + m * k + m] == xss[k]
  {
    ConcatSplit(xss, k);
    ConcatLength(xss[..k], m);
    var before := head + Concat(xss[..k]);
    assert head + Concat(xss) == before + xss[k] + Concat(xss[k + 1..]);
    MiddleSlice(before, xss[k], Concat(xss[k + 1..]));
  }

  /** The labels of concatenated blocks are the concatenated labels. */
  lemma {:induction false} LabelsConcat(xss: seq<seq<Line>>, labels: seq<seq<string>>)
    requires |labels| == |xss|
    requires forall i :: 0 <= i < |xss| ==> Labels(xss[i]) == labels[i]
    ensures Labels(Concat(xss)) == Concat(labels)
  {
    if xss != [] {
      LabelsAppend(xss[0], Concat(xss[1..]));
      LabelsConcat(xss[1..], labels[1..]);
    }
  }

  /** The result file `<filename>.txt`, opened in append mode for every write. */
  class ResultFile {
    const path: string
    var lines: seq<string>

    constructor Open(filename: string, existing: seq<string>)
      ensures path == filename + ".txt"
      ensures lines == existing
    {
      path := filename + ".txt";
      lines := existing;
    }

    /** Append-only: what was there stays, the new lines follow in order. */
    method Append(block: seq<string>)
      modifies this
      ensures lines == old(lines) + block
    {
      lines := lines + block;
    }

    /** Writes a record: the `head` lines, then each block in turn. */
    method AppendRecord(head: seq<Line>, blocks: seq<seq<Line>>)
      modifies this
      ensures lines == old(lines) + RenderAll(head + Concat(blocks))
    {
      Append(RenderAll(head));
      for j := 0 to |blocks|
        invariant lines == old(lines) + RenderAll(head) + RenderAll(Concat(blocks[..j]))
      {
        Append(RenderAll(blocks[j]));
        assert blocks[..j + 1] == blocks[..j] + [blocks[j]];
        ConcatAppend(blocks[..j], [blocks[j]]);
        assert Concat([blocks[j]]) == blocks[j] + Concat([blocks[j]][1..]);
        assert Concat([blocks[j]]) == blocks[j];
        RenderAllAppend(Concat(blocks[..j]), blocks[j]);
        AppendAssoc(old(lines) + RenderAll(head), RenderAll(Concat(blocks[..j])), RenderAll(blocks[j]));
      }
      assert blocks[..|blocks|] == blocks;
      RenderAllAppend(head, Concat(blocks));
      AppendAssoc(old(lines), RenderAll(head), RenderAll(Concat(blocks)));
    }
  }
}
