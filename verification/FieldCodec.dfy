/** Reading a record field by field, whatever the fields are: facts about any reader and writer of single
 * fields that fit together. */
module FieldCodec {
  import opened Options

  type Byte = x: int | 0 <= x < 256
  type Bytes = seq<Byte>

  /** A value and the offset after it. */
  datatype Read<+T> = Read(value: T, next: nat)

  /** One field after the other, from an offset on; the first that cannot be read ends it. */
  function ReadAll<F, V>(read: (F, Bytes, nat) -> Option<Read<V>>, layout: seq<F>, data: Bytes,
                         from: nat): Option<Read<seq<V>>>
    decreases |layout|
  {
    if layout == [] then Some(Read([], from))
    else
      match read(layout[0], data, from)
      case None => None
      case Some(head) =>
        match ReadAll(read, layout[1..], data, head.next)
        case None => None
        case Some(rest) => Some(Read([head.value] + rest.value, rest.next))
  }

  function WriteAll<F, V>(write: (F, V) -> Bytes, layout: seq<F>, values: seq<V>): Bytes
    requires |layout| == |values|
    decreases |layout|
  {
    if layout == [] then [] else write(layout[0], values[0]) + WriteAll(write, layout[1..], values[1..])
  }

  predicate FitsAll<F(!new), V(!new)>(fits: (F, V) -> bool, layout: seq<F>, values: seq<V>) {
    |layout| == |values| && forall i | 0 <= i < |layout| :: fits(layout[i], values[i])
  }

  lemma {:induction false} ConsFits<F(!new), V(!new)>(fits: (F, V) -> bool, layout: seq<F>, values: seq<V>)
    requires layout != [] && values != []
    ensures FitsAll(fits, layout, values) <==> fits(layout[0], values[0]) && FitsAll(fits, layout[1..], values[1..])
  {
  }

  /** A field that was written is read back, whatever is around it. */
  ghost predicate Inverts<F(!new), V(!new)>(
    read: (F, Bytes, nat) -> Option<Read<V>>, write: (F, V) -> Bytes, fits: (F, V) -> bool)
  {
    forall f, v, pre, rest | fits(f, v) ::
      read(f, pre + write(f, v) + rest, |pre|) == Some(Read(v, |pre + write(f, v)|))
  }

  /** What is read depends on the bytes read alone. */
  ghost predicate Local<F(!new), V(!new)>(read: (F, Bytes, nat) -> Option<Read<V>>) {
    && (forall f, data, from: nat | read(f, data, from).Some? :: from <= read(f, data, from).value.next <= |data|)
    && (forall f, data, more, from: nat | read(f, data, from).Some? ::
        read(f, data + more, from) == read(f, data, from))
    && (forall f, data, from: nat, n: nat | read(f, data, from).Some?
        && read(f, data, from).value.next <= n <= |data| ::
          read(f, data[..n], from) == read(f, data, from))
  }

  /** Writing a field that was read takes as many bytes again, and gives them back when they were plain. */
  ghost predicate Rewrites<F(!new), V(!new)>(
    read: (F, Bytes, nat) -> Option<Read<V>>, write: (F, V) -> Bytes, fits: (F, V) -> bool,
    plain: (F, Bytes, nat) -> bool)
  {
    forall f, data, from: nat | read(f, data, from).Some? ::
      var r := read(f, data, from).value;
      && fits(f, r.value) && from <= r.next <= |data| && |write(f, r.value)| == r.next - from
      && (write(f, r.value) == data[from..r.next] <==> plain(f, data, from))
  }

  // ----- Reading field after field -----

  lemma {:induction false} ReadAllSplit<F, V>(read: (F, Bytes, nat) -> Option<Read<V>>, layout: seq<F>, data: Bytes,
                                              from: nat, i: nat)
    requires i < |layout|
    ensures ReadAll(read, layout[..i + 1], data, from) ==
              match ReadAll(read, layout[..i], data, from)
              case None => None
              case Some(r) =>
                match read(layout[i], data, r.next)
                case None => None
                case Some(v) => Some(Read(r.value + [v.value], v.next))
    decreases |layout|
  {
    if i > 0 {
      assert layout[..i + 1][1..] == layout[1..][..i] && layout[..i][1..] == layout[1..][..i - 1];
      if read(layout[0], data, from).Some? {
        var head := read(layout[0], data, from).value;
        ReadAllSplit(read, layout[1..], data, head.next, i - 1);
        var rest := ReadAll(read, layout[1..][..i - 1], data, head.next);
        if rest.Some? && read(layout[i], data, rest.value.next).Some? {
          var v := read(layout[i], data, rest.value.next).value.value;
          assert [head.value] + (rest.value.value + [v]) == [head.value] + rest.value.value + [v];
        }
      }
    } else {
      assert layout[..1] == [layout[0]] && layout[..1][1..] == [] && layout[..0] == [];
      assert forall v: V :: [v] + [] == [] + [v];
    }
  }

  lemma {:induction false} ReadAllFails<F, V>(read: (F, Bytes, nat) -> Option<Read<V>>, layout: seq<F>, data: Bytes,
                                              from: nat, i: nat)
    requires i <= |layout| && ReadAll(read, layout[..i], data, from) == None
    ensures ReadAll(read, layout, data, from) == None
    decreases |layout| - i
  {
    if i < |layout| {
      ReadAllSplit(read, layout, data, from, i);
      ReadAllFails(read, layout, data, from, i + 1);
    } else {
      assert layout[..i] == layout;
    }
  }

  // ----- Reading what was written -----

  lemma {:induction false} Regroup(a: Bytes, b: Bytes, c: Bytes, d: Bytes)
    ensures a + (b + c) + d == a + b + (c + d)
    ensures a + (b + c) + d == (a + b) + c + d
  {
  }

  lemma {:induction false} AllRoundTrip<F(!new), V(!new)>(
    read: (F, Bytes, nat) -> Option<Read<V>>, write: (F, V) -> Bytes, fits: (F, V) -> bool,
    layout: seq<F>, values: seq<V>, pre: Bytes, rest: Bytes)
    requires Inverts(read, write, fits) && FitsAll(fits, layout, values)
    ensures
      var body := WriteAll(write, layout, values);
      ReadAll(read, layout, pre + body + rest, |pre|) == Some(Read(values, |pre + body|))
    decreases |layout|
  {
    if layout == [] {
    } else {
      ConsFits(fits, layout, values);
      var head, tail := write(layout[0], values[0]), WriteAll(write, layout[1..], values[1..]);
      Regroup(pre, head, tail, rest);
      assert read(layout[0], pre + head + (tail + rest), |pre|) == Some(Read(values[0], |pre + head|));
      AllRoundTrip(read, write, fits, layout[1..], values[1..], pre + head, rest);
      assert [values[0]] + values[1..] == values;
    }
  }

  // ----- Extensions and truncations -----

  lemma {:induction false} AllInBounds<F(!new), V(!new)>(
    read: (F, Bytes, nat) -> Option<Read<V>>, layout: seq<F>, data: Bytes, from: nat)
    requires Local(read) && ReadAll(read, layout, data, from).Some? && from <= |data|
    ensures from <= ReadAll(read, layout, data, from).value.next <= |data|
    decreases |layout|
  {
    if layout == [] {
    } else {
      AllInBounds(read, layout[1..], data, read(layout[0], data, from).value.next);
    }
  }

  lemma {:induction false} AllStable<F(!new), V(!new)>(
    read: (F, Bytes, nat) -> Option<Read<V>>, layout: seq<F>, data: Bytes, more: Bytes, from: nat)
    requires Local(read) && ReadAll(read, layout, data, from).Some?
    ensures ReadAll(read, layout, data + more, from) == ReadAll(read, layout, data, from)
    decreases |layout|
  {
    if layout == [] {
    } else {
      AllStable(read, layout[1..], data, more, read(layout[0], data, from).value.next);
    }
  }

  lemma {:induction false} AllLocal<F(!new), V(!new)>(
    read: (F, Bytes, nat) -> Option<Read<V>>, layout: seq<F>, data: Bytes, from: nat, n: nat)
    requires Local(read) && ReadAll(read, layout, data, from).Some? && from <= |data|
    requires ReadAll(read, layout, data, from).value.next <= n <= |data|
    ensures ReadAll(read, layout, data[..n], from) == ReadAll(read, layout, data, from)
    decreases |layout|
  {
    if layout == [] {
    } else {
      var head := read(layout[0], data, from).value;
      AllInBounds(read, layout[1..], data, head.next);
      AllLocal(read, layout[1..], data, head.next, n);
    }
  }

  // ----- Writing what was read -----

  lemma {:induction false} SameSplit(whole: Bytes, n: nat, a: Bytes, b: Bytes)
    requires n <= |whole| && |a| == n && |b| == |whole| - n
    ensures a + b == whole <==> a == whole[..n] && b == whole[n..]
  {
  }

  predicate PlainAll<F, V>(read: (F, Bytes, nat) -> Option<Read<V>>, plain: (F, Bytes, nat) -> bool, layout: seq<F>,
                           data: Bytes, from: nat)
    decreases |layout|
  {
    layout == [] ||
    match read(layout[0], data, from)
    case None => true
    case Some(head) => plain(layout[0], data, from) && PlainAll(read, plain, layout[1..], data, head.next)
  }

  lemma {:induction false} AllRewrite<F(!new), V(!new)>(
    read: (F, Bytes, nat) -> Option<Read<V>>, write: (F, V) -> Bytes, fits: (F, V) -> bool,
    plain: (F, Bytes, nat) -> bool,
    layout: seq<F>, data: Bytes, from: nat)
    requires Rewrites(read, write, fits, plain) && ReadAll(read, layout, data, from).Some? && from <= |data|
    ensures
      var r := ReadAll(read, layout, data, from).value;
      && FitsAll(fits, layout, r.value) && r.next <= |data| && |WriteAll(write, layout, r.value)| == r.next - from
      && (WriteAll(write, layout, r.value) == data[from..r.next] <==> PlainAll(read, plain, layout, data, from))
    decreases |layout|
  {
    if layout == [] {
    } else {
      var head := read(layout[0], data, from).value;
      AllRewrite(read, write, fits, plain, layout[1..], data, head.next);
      var rest := ReadAll(read, layout[1..], data, head.next).value;
      var values := [head.value] + rest.value;
      assert values[1..] == rest.value;
      ConsFits(fits, layout, values);
      var whole, n := data[from..rest.next], head.next - from;
      assert whole[..n] == data[from..head.next] && whole[n..] == data[head.next..rest.next];
      SameSplit(whole, n, write(layout[0], head.value), WriteAll(write, layout[1..], rest.value));
    }
  }
}
