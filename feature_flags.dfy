/** The release builder's feature-flag request: a `Features` value listing the flags a
    proposal enables and the flags it disables, how two requests are squashed into one,
    how a request is compared with the flags already enabled on chain, how the
    on-chain state is read back into a request, and the `vector[...]` literal the
    proposal script carries the flag numbers in. */
module FeatureFlags {
  import opened Common
  import opened FeatureFlagEnum

  /** The on-chain `Features` value, seen through `is_enabled`: the set of on-chain
      flags it enables. Its bitmap encoding is not part of this model. */
  datatype OnChainFeatures = OnChainFeatures(enabledFlags: set<OnChainFeatureFlag>)
  {
    predicate IsEnabled(g: OnChainFeatureFlag)
    {
      g in enabledFlags
    }
  }

  /** The release builder's flags whose on-chain counterpart `on` enables. */
  ghost function EnabledOnChain(on: OnChainFeatures): set<FeatureFlag>
  {
    set f: FeatureFlag | on.IsEnabled(ToOnChain(f))
  }

  /** The release builder's flags whose on-chain counterpart `on` leaves disabled. */
  ghost function DisabledOnChain(on: OnChainFeatures): set<FeatureFlag>
  {
    set f: FeatureFlag | !on.IsEnabled(ToOnChain(f))
  }

  /** A list of flags lies within the flags `on` enables (disables) exactly when each of
      its flags is (is not) enabled on chain. */
  lemma OnChainSubsets(on: OnChainFeatures, s: seq<FeatureFlag>)
    ensures (forall f :: f in s ==> on.IsEnabled(ToOnChain(f))) <==> Elems(s) <= EnabledOnChain(on)
    ensures (forall f :: f in s ==> !on.IsEnabled(ToOnChain(f))) <==> Elems(s) <= DisabledOnChain(on)
  {
    assert forall f :: f in Elems(s) <==> f in s;
  }

  /** The set arithmetic of `squash`: the flags `rhs` enables leave the disabled set and
      join the enabled set, then the flags `rhs` disables leave the enabled set and join
      the disabled set. The result is the pair (enabled, disabled). */
  function SquashSets(enabled: set<FeatureFlag>, disabled: set<FeatureFlag>,
                      toEnable: set<FeatureFlag>, toDisable: set<FeatureFlag>)
    : (r: (set<FeatureFlag>, set<FeatureFlag>))
    // a flag the later request disables ends up disabled, even if it also enables it
    ensures toDisable <= r.1 && toDisable !! r.0
    // a flag the later request only enables ends up enabled
    ensures toEnable - toDisable <= r.0 && (toEnable - toDisable) !! r.1
    // a flag the later request does not mention keeps its place
    ensures forall f :: f !in toEnable && f !in toDisable ==>
              (f in r.0 <==> f in enabled) && (f in r.1 <==> f in disabled)
    // no flag is lost, and a flag is in both lists only if it was in both before and
    // the later request does not mention it
    ensures r.0 + r.1 == enabled + disabled + toEnable + toDisable
    ensures r.0 * r.1 == enabled * disabled - (toEnable + toDisable)
  {
    var disabled' := disabled - toEnable;
    var enabled' := enabled + toEnable;
    (enabled' - toDisable, disabled' + toDisable)
  }

  /** Squashing is associative: applying request `a` and then request `b` to a state
      gives what applying the squash of `a` and `b` gives in one step. */
  lemma SquashAssociative(e: set<FeatureFlag>, d: set<FeatureFlag>,
                          ae: set<FeatureFlag>, ad: set<FeatureFlag>,
                          be: set<FeatureFlag>, bd: set<FeatureFlag>)
    ensures var ab := SquashSets(ae, ad, be, bd);
            var s := SquashSets(e, d, ae, ad);
            SquashSets(s.0, s.1, be, bd) == SquashSets(e, d, ab.0, ab.1)
  {
    var ab := SquashSets(ae, ad, be, bd);
    var s := SquashSets(e, d, ae, ad);
    var left := SquashSets(s.0, s.1, be, bd);
    var right := SquashSets(e, d, ab.0, ab.1);
    assert left.0 == right.0;
    assert left.1 == right.1;
  }

  /** Squashing the same request twice has the effect of squashing it once. */
  lemma SquashIdempotent(e: set<FeatureFlag>, d: set<FeatureFlag>,
                         te: set<FeatureFlag>, td: set<FeatureFlag>)
    ensures var s := SquashSets(e, d, te, td);
            SquashSets(s.0, s.1, te, td) == s
  {
    var s := SquashSets(e, d, te, td);
    var t := SquashSets(s.0, s.1, te, td);
    assert t.0 == s.0;
    assert t.1 == s.1;
  }

  /** A request that mentions no flag changes nothing when squashed in. */
  lemma SquashEmptyIsIdentity(e: set<FeatureFlag>, d: set<FeatureFlag>)
    ensures SquashSets(e, d, {}, {}) == (e, d)
  {
    var s := SquashSets(e, d, {}, {});
    assert s.0 == e;
    assert s.1 == d;
  }

  /** A feature-flag request: the flags to enable and the flags to disable. */
  class Features {
    var enabled: seq<FeatureFlag>
    var disabled: seq<FeatureFlag>

    /** `Features::empty()`: a request that mentions no flag. */
    constructor Empty()
      ensures enabled == [] && disabled == []
      ensures IsEmpty()
    {
      enabled := [];
      disabled := [];
    }

    /** `squash`: folds the later request `rhs` into this one. Both lists are rebuilt
        from hash sets, so each holds every flag once, in an unspecified order. */
    method Squash(rhs: Features)
      modifies this
      ensures var r := SquashSets(Elems(old(enabled)), Elems(old(disabled)),
                                  Elems(old(rhs.enabled)), Elems(old(rhs.disabled)));
              Elems(enabled) == r.0 && Elems(disabled) == r.1
      ensures NoDuplicates(enabled) && NoDuplicates(disabled)
    {
      var r := SquashSets(Elems(enabled), Elems(disabled), Elems(rhs.enabled), Elems(rhs.disabled));
      var newEnabled := SeqOfSet(r.0);
      var newDisabled := SeqOfSet(r.1);
      enabled := newEnabled;
      disabled := newDisabled;
    }

    /** `is_empty`: true exactly when the request mentions no flag, so that squashing
        it into any request changes nothing (`SquashEmptyIsIdentity`). */
    function IsEmpty(): (b: bool)
      reads this
      ensures b <==> Elems(enabled) == {} && Elems(disabled) == {}
    {
      ElemsEmpty(enabled);
      ElemsEmpty(disabled);
      |enabled| == 0 && |disabled| == 0
    }

    /** `has_modified`: the request differs from the on-chain state `on` when it enables
        a flag `on` leaves disabled or disables a flag `on` enables. */
    function HasModified(on: OnChainFeatures): (b: bool)
      reads this
      ensures !b <==> Elems(enabled) <= EnabledOnChain(on) && Elems(disabled) <= DisabledOnChain(on)
    {
      OnChainSubsets(on, enabled);
      OnChainSubsets(on, disabled);
      (exists f :: f in enabled && !on.IsEnabled(ToOnChain(f)))
      || (exists f :: f in disabled && on.IsEnabled(ToOnChain(f)))
    }

    /** `From<&CreditChainFeatures> for Features`: walks every flag in declaration order
        and files it under enabled or disabled according to `on`. */
    constructor FromOnChain(on: OnChainFeatures)
      ensures forall f :: f in enabled <==> on.IsEnabled(ToOnChain(f))
      ensures forall f :: f in disabled <==> !on.IsEnabled(ToOnChain(f))
      ensures forall i, j :: 0 <= i < j < |enabled| ==> enabled[i] < enabled[j]
      ensures forall i, j :: 0 <= i < j < |disabled| ==> disabled[i] < disabled[j]
      ensures !HasModified(on)
    {
      var en: seq<FeatureFlag> := [];
      var dis: seq<FeatureFlag> := [];
      for k := 0 to |AllFlags()|
        invariant forall f: FeatureFlag :: f in en <==> f as int < k && on.IsEnabled(ToOnChain(f))
        invariant forall f: FeatureFlag :: f in dis <==> f as int < k && !on.IsEnabled(ToOnChain(f))
        invariant forall i, j :: 0 <= i < j < |en| ==> en[i] < en[j]
        invariant forall i, j :: 0 <= i < j < |dis| ==> dis[i] < dis[j]
        invariant forall i :: 0 <= i < |en| ==> en[i] as int < k
        invariant forall i :: 0 <= i < |dis| ==> dis[i] as int < k
      {
        var feature := AllFlags()[k];
        AllFlagsEnumeratesEachOnce(feature);
        if on.IsEnabled(ToOnChain(feature)) {
          en := en + [feature];
        } else {
          dis := dis + [feature];
        }
      }
      enabled := en;
      disabled := dis;
    }
  }

  /** A request that agrees with the on-chain state, squashed into the request read
      back from that state, changes nothing; and when the request does not both enable
      and disable one flag, the converse holds as well. */
  lemma UnmodifiedIffSquashIsNoOp(request: Features, on: OnChainFeatures)
    ensures var r := SquashSets(EnabledOnChain(on), DisabledOnChain(on),
                                Elems(request.enabled), Elems(request.disabled));
            (!request.HasModified(on) ==> r == (EnabledOnChain(on), DisabledOnChain(on)))
            && (Elems(request.enabled) !! Elems(request.disabled) && r == (EnabledOnChain(on), DisabledOnChain(on))
                ==> !request.HasModified(on))
  {
    var p := (EnabledOnChain(on), DisabledOnChain(on));
    var te, td := Elems(request.enabled), Elems(request.disabled);
    var r := SquashSets(p.0, p.1, te, td);
    assert p.0 !! p.1;
    if !request.HasModified(on) {
      assert r.0 == p.0;
      assert r.1 == p.1;
    }
  }

  /** What the proposal generator asks of its `CodeWriter`. The writer itself belongs
      to the Move compiler; it is modelled by the list of requests it has received. */
  datatype WriterOp = Text(text: string) | NewLine | Indent | Unindent

  /** The code writer, as the sequence of requests made to it so far. */
  class CodeWriter {
    var ops: seq<WriterOp>

    constructor ()
      ensures ops == []
    {
      ops := [];
    }

    /** `emit!(writer, ...)`: text on the current line. */
    method Emit(text: string)
      modifies this
      ensures ops == old(ops) + [Text(text)]
    {
      ops := ops + [Text(text)];
    }

    /** `emitln!(writer)`: ends the current line. */
    method EmitNewLine()
      modifies this
      ensures ops == old(ops) + [NewLine]
    {
      ops := ops + [NewLine];
    }

    method Indent()
      modifies this
      ensures ops == old(ops) + [WriterOp.Indent]
    {
      ops := ops + [WriterOp.Indent];
    }

    method Unindent()
      modifies this
      ensures ops == old(ops) + [WriterOp.Unindent]
    {
      ops := ops + [WriterOp.Unindent];
    }
  }

  /** The text of the lines a sequence of writer requests produces, ignoring the
      indentation the writer adds at the start of a line. */
  function Render(ops: seq<WriterOp>): (lines: seq<string>)
    ensures |lines| >= 1
  {
    if ops == [] then [""]
    else
      var lines := Render(ops[..|ops| - 1]);
      match ops[|ops| - 1]
      case Text(t) => lines[..|lines| - 1] + [lines[|lines| - 1] + t]
      case NewLine => lines + [""]
      case _ => lines
  }

  /** How one flag number is written into the blob: `format!("{},", b)`. */
  function Item(b: u64): string
  {
    Decimal(b as nat) + ","
  }

  /** Number of items on one line of the blob. */
  const ITEMS_PER_LINE := 20

  /** What is written before the `i`-th item: a line break before every twentieth item
      except the first, a space before every other item that does not start a line. */
  function Separator(i: nat): seq<WriterOp>
  {
    if i % ITEMS_PER_LINE == 0 then (if i > 0 then [NewLine] else []) else [Text(" ")]
  }

  /** The requests the loop of `generate_features_blob` makes for `data`. */
  function ItemOps(data: seq<u64>): seq<WriterOp>
  {
    if data == [] then []
    else ItemOps(data[..|data| - 1]) + Separator(|data| - 1) + [Text(Item(data[|data| - 1]))]
  }

  /** The requests before the loop: `emitln!(writer, "vector[")` and `indent()`. */
  const BLOB_HEADER: seq<WriterOp> := [Text("vector["), NewLine, WriterOp.Indent]

  /** The requests after the loop: `emitln!(writer)`, `unindent()`, `emit!(writer, "]")`. */
  const BLOB_FOOTER: seq<WriterOp> := [NewLine, WriterOp.Unindent, Text("]")]

  /** `generate_features_blob`: writes `data` as a Move `vector[...]` literal. */
  method GenerateFeaturesBlob(writer: CodeWriter, data: seq<u64>)
    modifies writer
    ensures writer.ops == old(writer.ops) + BLOB_HEADER + ItemOps(data) + BLOB_FOOTER
  {
    writer.Emit("vector[");
    writer.EmitNewLine();
    writer.Indent();
    ghost var start := writer.ops;
    assert start == old(writer.ops) + BLOB_HEADER;
    for i := 0 to |data|
      invariant writer.ops == start + ItemOps(data[..i])
    {
      if i % 20 == 0 {
        if i > 0 {
          writer.EmitNewLine();
        }
      } else {
        writer.Emit(" ");
      }
      writer.Emit(Item(data[i]));
      ItemOpsPrefixStep(data, i);
    }
    assert data[..|data|] == data;
    ghost var end := writer.ops;
    writer.EmitNewLine();
    writer.Unindent();
    writer.Emit("]");
    assert writer.ops == end + BLOB_FOOTER;
  }

  /** Number of lines the items of `n` flags take. */
  function LineCount(n: nat): (c: nat)
    ensures forall j :: 0 <= j < c ==> ITEMS_PER_LINE * j < n
    ensures n > 0 ==> ITEMS_PER_LINE * (c - 1) < n <= ITEMS_PER_LINE * c
    ensures n % ITEMS_PER_LINE == 0 ==> ITEMS_PER_LINE * c == n
  {
    (n + ITEMS_PER_LINE - 1) / ITEMS_PER_LINE
  }

  /** Items written one after another, separated by single spaces. */
  function Spaced(items: seq<u64>): string
  {
    if items == [] then ""
    else if |items| == 1 then Item(items[0])
    else Spaced(items[..|items| - 1]) + " " + Item(items[|items| - 1])
  }

  /** Line `j` of the items: items `20 * j` up to `20 * j + 19`, or to the last item. */
  function ItemLine(data: seq<u64>, j: nat): string
    requires ITEMS_PER_LINE * j < |data|
  {
    var lo := ITEMS_PER_LINE * j;
    Spaced(data[lo..if lo + ITEMS_PER_LINE < |data| then lo + ITEMS_PER_LINE else |data|])
  }

  /** The expected item lines, in order. */
  function ItemLines(data: seq<u64>): (lines: seq<string>)
    ensures |lines| == LineCount(|data|)
  {
    var c := LineCount(|data|);
    seq(c, j requires 0 <= j < c => ItemLine(data, j))
  }

  /** Text continues the last line. */
  lemma RenderText(ops: seq<WriterOp>, t: string)
    ensures var lines := Render(ops);
            Render(ops + [Text(t)]) == lines[..|lines| - 1] + [lines[|lines| - 1] + t]
  {
    assert (ops + [Text(t)])[..|ops|] == ops;
  }

  /** A line break starts a new, empty line. */
  lemma RenderNewLine(ops: seq<WriterOp>)
    ensures Render(ops + [NewLine]) == Render(ops) + [""]
  {
    assert (ops + [NewLine])[..|ops|] == ops;
  }

  /** Indentation changes do not change the text of the lines. */
  lemma RenderIndentation(ops: seq<WriterOp>, op: WriterOp)
    requires op.Indent? || op.Unindent?
    ensures Render(ops + [op]) == Render(ops)
  {
    assert (ops + [op])[..|ops|] == ops;
  }

  lemma SpacedSnoc(items: seq<u64>, x: u64)
    requires items != []
    ensures Spaced(items + [x]) == Spaced(items) + " " + Item(x)
  {
    assert (items + [x])[..|items|] == items;
  }

  lemma ItemOpsSnoc(data: seq<u64>, x: u64)
    ensures ItemOps(data + [x]) == ItemOps(data) + Separator(|data|) + [Text(Item(x))]
  {
    assert (data + [x])[..|data|] == data;
  }

  lemma ItemOpsPrefixStep(data: seq<u64>, i: nat)
    requires i < |data|
    ensures ItemOps(data[..i + 1]) == ItemOps(data[..i]) + Separator(i) + [Text(Item(data[i]))]
  {
    assert data[..i + 1] == data[..i] + [data[i]];
    ItemOpsSnoc(data[..i], data[i]);
  }

  /** A full line of items is not changed by items added after it. */
  lemma FullLineUnchanged(data: seq<u64>, x: u64, j: nat)
    requires ITEMS_PER_LINE * j + ITEMS_PER_LINE <= |data|
    ensures ItemLine(data + [x], j) == ItemLine(data, j)
  {
    var lo := ITEMS_PER_LINE * j;
    assert (data + [x])[lo..lo + ITEMS_PER_LINE] == data[lo..lo + ITEMS_PER_LINE];
  }

  /** A new item that starts a new line of the blob adds that line. */
  lemma ItemLinesNewLine(data: seq<u64>, x: u64)
    requires |data| % ITEMS_PER_LINE == 0
    ensures ItemLines(data + [x]) == ItemLines(data) + [Item(x)]
  {
    var d := data + [x];
    var a, b := ItemLines(d), ItemLines(data) + [Item(x)];
    var c := LineCount(|data|);
    assert |a| == c + 1;
    forall j | 0 <= j < c
      ensures a[j] == b[j]
    {
      FullLineUnchanged(data, x, j);
    }
    assert d[ITEMS_PER_LINE * c..|d|] == [x];
    assert a[c] == b[c];
  }

  /** An item that does not start a line leaves the number of lines as it was. */
  lemma LineCountSameLine(n: nat)
    requires n % ITEMS_PER_LINE != 0
    ensures LineCount(n + 1) == LineCount(n)
  {
  }

  /** The last line, when it is not full, takes the new item after a space. */
  lemma LastLineExtended(data: seq<u64>, x: u64)
    requires |data| % ITEMS_PER_LINE != 0
    ensures var c := LineCount(|data|);
            ItemLine(data + [x], c - 1) == ItemLine(data, c - 1) + " " + Item(x)
  {
    var c := LineCount(|data|);
    var lo := ITEMS_PER_LINE * (c - 1);
    assert lo < |data| < lo + ITEMS_PER_LINE;
    var last := data[lo..|data|];
    assert (data + [x])[lo..|data| + 1] == last + [x];
    SpacedSnoc(last, x);
  }

  /** A new item that continues the last line of the blob is appended to that line
      after a space. */
  lemma ItemLinesSameLine(data: seq<u64>, x: u64)
    requires |data| % ITEMS_PER_LINE != 0
    ensures var lines := ItemLines(data);
            ItemLines(data + [x]) == lines[..|lines| - 1] + [lines[|lines| - 1] + " " + Item(x)]
  {
    var lines := ItemLines(data);
    var a, b := ItemLines(data + [x]), lines[..|lines| - 1] + [lines[|lines| - 1] + " " + Item(x)];
    var c := LineCount(|data|);
    LineCountSameLine(|data|);
    forall j | 0 <= j < c - 1
      ensures a[j] == b[j]
    {
      FullLineUnchanged(data, x, j);
    }
    LastLineExtended(data, x);
    assert a[c - 1] == b[c - 1];
  }

  /** The header alone renders as the `vector[` line and an empty line. */
  lemma HeaderLayout()
    ensures Render(BLOB_HEADER) == ["vector[", ""]
  {
    var open := [Text("vector[")];
    RenderText([], "vector[");
    assert [] + open == open;
    assert Render([]) == [""];
    assert [""][..0] == [];
    assert "" + "vector[" == "vector[";
    assert Render(open) == ["vector["];
    RenderNewLine(open);
    assert Render(open + [NewLine]) == ["vector[", ""];
    RenderIndentation(open + [NewLine], WriterOp.Indent);
    assert BLOB_HEADER == open + [NewLine] + [WriterOp.Indent];
  }

  /** The first item goes on the empty line after `vector[`. */
  lemma FirstItemLayout(before: seq<WriterOp>, x: u64)
    requires Render(before) == ["vector[", ""]
    ensures Render(before + [Text(Item(x))]) == ["vector["] + ItemLines([x])
  {
    RenderText(before, Item(x));
    assert ["vector[", ""][..1] == ["vector["];
    assert "" + Item(x) == Item(x);
    assert ItemLines([x]) == [Item(x)];
  }

  /** An item after a full line of twenty starts a new line. */
  lemma NewLineItemLayout(before: seq<WriterOp>, data: seq<u64>, x: u64)
    requires data != [] && |data| % ITEMS_PER_LINE == 0
    requires Render(before) == ["vector["] + ItemLines(data)
    ensures Render(before + [NewLine] + [Text(Item(x))]) == ["vector["] + ItemLines(data + [x])
  {
    var lines := Render(before);
    RenderNewLine(before);
    RenderText(before + [NewLine], Item(x));
    assert (lines + [""])[..|lines|] == lines;
    assert "" + Item(x) == Item(x);
    ItemLinesNewLine(data, x);
  }

  /** Any other item continues the current line after a space. */
  lemma SameLineItemLayout(before: seq<WriterOp>, data: seq<u64>, x: u64)
    requires |data| % ITEMS_PER_LINE != 0
    requires Render(before) == ["vector["] + ItemLines(data)
    ensures Render(before + [Text(" ")] + [Text(Item(x))]) == ["vector["] + ItemLines(data + [x])
  {
    RenderText(before, " ");
    RenderText(before + [Text(" ")], Item(x));
    ItemLinesSameLine(data, x);
  }

  /** One more item, with what is written before it, extends the rendering as
      `ItemLines` says. */
  lemma ItemLayoutStep(before: seq<WriterOp>, data: seq<u64>, x: u64)
    requires Render(before) == ["vector["] + (if data == [] then [""] else ItemLines(data))
    ensures Render(before + Separator(|data|) + [Text(Item(x))]) == ["vector["] + ItemLines(data + [x])
  {
    var n := |data|;
    var item := Text(Item(x));
    if n == 0 {
      assert before + Separator(n) + [item] == before + [item];
      assert data + [x] == [x];
      FirstItemLayout(before, x);
    } else if n % ITEMS_PER_LINE == 0 {
      assert Separator(n) == [NewLine];
      NewLineItemLayout(before, data, x);
    } else {
      assert Separator(n) == [Text(" ")];
      SameLineItemLayout(before, data, x);
    }
  }

  /** The header and the items of `generate_features_blob` render as the `vector[`
      line followed by the item lines, twenty items to a line (an empty line when
      there are no items). */
  lemma {:induction false} ItemLayout(data: seq<u64>)
    ensures Render(BLOB_HEADER + ItemOps(data))
            == ["vector["] + (if data == [] then [""] else ItemLines(data))
  {
    if data == [] {
      HeaderLayout();
      assert BLOB_HEADER + ItemOps(data) == BLOB_HEADER;
    } else {
      var prefix := data[..|data| - 1];
      assert data == prefix + [data[|data| - 1]];
      var x := data[|data| - 1];
      ItemLayout(prefix);
      ItemOpsSnoc(prefix, x);
      var before := BLOB_HEADER + ItemOps(prefix);
      assert BLOB_HEADER + ItemOps(data) == before + Separator(|prefix|) + [Text(Item(x))];
      ItemLayoutStep(before, prefix, x);
    }
  }

  /** What `generate_features_blob` writes: a `vector[` line, the flag numbers twenty
      to a line, each followed by a comma, and a closing `]` on a line of its own. */
  lemma BlobLayout(data: seq<u64>)
    ensures Render(BLOB_HEADER + ItemOps(data) + BLOB_FOOTER)
            == ["vector["] + (if data == [] then [""] else ItemLines(data)) + ["]"]
  {
    var body := BLOB_HEADER + ItemOps(data);
    ItemLayout(data);
    assert body + BLOB_FOOTER == ((body + [NewLine]) + [WriterOp.Unindent]) + [Text("]")];
    var lines := Render(body);
    RenderNewLine(body);
    RenderIndentation(body + [NewLine], WriterOp.Unindent);
    RenderText(body + [NewLine] + [WriterOp.Unindent], "]");
    assert (lines + [""])[..|lines|] == lines;
    assert "" + "]" == "]";
  }
}
