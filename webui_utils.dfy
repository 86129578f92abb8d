/** Three helpers of `webui/utils.py`: the hint `detailed_error` puts in front of an error
    message, the coloured rendering of a configuration by `color_config`, and the download host
    `get_main_link` chooses. */
module WebuiUtils {
  import opened Wrappers
  import opened Strings

  // ---------------------------------------------------------------- detailed_error

  /** The kinds of failure `detailed_error` recognises, in the order it tests them. */
  datatype Hint = OutOfVideoMemory | OutOfMemory | MissingFfmpeg | BrokenModel | MissingFile

  /** The position of a hint in the `elif` chain. */
  function Rank(h: Hint): nat {
    match h
    case OutOfVideoMemory => 0
    case OutOfMemory => 1
    case MissingFfmpeg => 2
    case BrokenModel => 3
    case MissingFile => 4
  }

  /** The fragments whose presence in the message selects a hint. */
  function Patterns(h: Hint): seq<string> {
    match h
    case OutOfVideoMemory => ["CUDA out of memory", "CUBLAS_STATUS_NOT_INITIALIZED"]
    case OutOfMemory => ["页面文件太小", "DataLoader worker", "DLL load failed while", "[WinError 1455]"]
    case MissingFfmpeg => ["ffprobe not found"]
    case BrokenModel => ["failed reading zip archive"]
    case MissingFile => ["No such file or directory", "系统找不到", "[WinError 3]", "[WinError 2]",
                         "The system cannot find the file specified"]
  }

  /** Some fragment of `h` occurs in the message. */
  predicate Matches(e: string, h: Hint) {
    exists k :: 0 <= k < |Patterns(h)| && Contains(e, Patterns(h)[k])
  }

  /** The `elif` chain of `detailed_error`. */
  function Classify(e: string): Option<Hint> {
    if Matches(e, OutOfVideoMemory) then Some(OutOfVideoMemory)
    else if Matches(e, OutOfMemory) then Some(OutOfMemory)
    else if Matches(e, MissingFfmpeg) then Some(MissingFfmpeg)
    else if Matches(e, BrokenModel) then Some(BrokenModel)
    else if Matches(e, MissingFile) then Some(MissingFile)
    else None
  }

  /** The chain picks the first hint whose fragments occur, and none exactly when no fragment of
      any hint occurs. */
  lemma ClassifyFirstMatch(e: string, h: Hint)
    ensures Classify(e) == Some(h) <==> Matches(e, h) && forall g :: Rank(g) < Rank(h) ==> !Matches(e, g)
    ensures Classify(e).None? <==> forall g :: !Matches(e, g)
  {
    if Classify(e).None? {
      forall g ensures !Matches(e, g) {
        match g
        case OutOfVideoMemory =>
        case OutOfMemory =>
        case MissingFfmpeg =>
        case BrokenModel =>
        case MissingFile =>
      }
    }
  }

  /** `detailed_error(e)`: the translated hint of the first matching kind and a line break are
      put in front of the message; `translate` stands for the interface-language lookup, and a
      hint it turns into the empty string adds nothing. */
  function DetailedError(e: string, translate: Hint -> string): (r: string)
    ensures EndsWith(r, e)
    ensures Classify(e).None? ==> r == e
    ensures Classify(e).Some? && translate(Classify(e).value) != "" ==> r == translate(Classify(e).value) + "\n" + e
    ensures r == e || |r| == |e| + 1 + |translate(Classify(e).value)|
  {
    var m := if Classify(e).Some? then translate(Classify(e).value) else "";
    var r := if m != "" then m + "\n" + e else e;
    assert r[|r| - |e|..] == e;
    r
  }

  // ---------------------------------------------------------------- color_config

  /** A configuration value: a dictionary of named values in insertion order, or anything else,
      given by its `str`. */
  datatype Value = Scalar(text: string) | Dict(items: seq<(string, Value)>)

  /** Python's ordering of strings: by code point, a prefix first. */
  predicate KeyLe(a: string, b: string)
    decreases |a|
  {
    a == [] || (b != [] && (a[0] < b[0] || (a[0] == b[0] && KeyLe(a[1..], b[1..]))))
  }

  lemma {:induction false} KeyLeTotal(a: string, b: string)
    ensures KeyLe(a, b) || KeyLe(b, a)
    decreases |a|
  {
    if a != [] && b != [] && a[0] == b[0] {
      KeyLeTotal(a[1..], b[1..]);
    }
  }

  predicate SortedByKey<V>(ps: seq<(string, V)>) {
    forall i :: 0 < i < |ps| ==> KeyLe(ps[i - 1].0, ps[i].0)
  }

  /** `p` placed before the first entry whose key is not below it. */
  function Insert<V>(p: (string, V), ps: seq<(string, V)>): seq<(string, V)>
    decreases |ps|
  {
    if ps == [] then [p]
    else if KeyLe(p.0, ps[0].0) then [p] + ps
    else [ps[0]] + Insert(p, ps[1..])
  }

  /** `sorted(d.items())`: the items in order of their keys (the keys of a dictionary differ,
      so they alone decide). */
  function SortByKey<V>(ps: seq<(string, V)>): seq<(string, V)>
    decreases |ps|
  {
    if ps == [] then [] else Insert(ps[0], SortByKey(ps[1..]))
  }

  /** Inserting adds `p` once, and the list then starts with `p` or with the old head. */
  lemma {:induction false} InsertPerm<V>(p: (string, V), ps: seq<(string, V)>)
    ensures multiset(Insert(p, ps)) == multiset(ps) + multiset{p}
    ensures Insert(p, ps) != [] && (Insert(p, ps)[0] == p || (ps != [] && Insert(p, ps)[0] == ps[0]))
    decreases |ps|
  {
    if ps != [] && !KeyLe(p.0, ps[0].0) {
      InsertPerm(p, ps[1..]);
      assert ps == [ps[0]] + ps[1..];
    }
  }

  /** Inserting into a list in key order keeps it in key order. */
  lemma {:induction false} InsertSorted<V>(p: (string, V), ps: seq<(string, V)>)
    requires SortedByKey(ps)
    ensures SortedByKey(Insert(p, ps))
    decreases |ps|
  {
    if ps != [] && !KeyLe(p.0, ps[0].0) {
      KeyLeTotal(p.0, ps[0].0);
      var tail := ps[1..];
      assert SortedByKey(tail) by {
        forall i | 0 < i < |tail| ensures KeyLe(tail[i - 1].0, tail[i].0) {
          assert tail[i - 1] == ps[i] && tail[i] == ps[i + 1];
        }
      }
      InsertSorted(p, tail);
      InsertPerm(p, tail);
      var rest := Insert(p, tail);
      assert Insert(p, ps) == [ps[0]] + rest;
      assert KeyLe(ps[0].0, rest[0].0) by {
        if rest[0] != p {
          assert rest[0] == ps[1];
        }
      }
      forall i | 0 < i < |[ps[0]] + rest|
        ensures KeyLe(([ps[0]] + rest)[i - 1].0, ([ps[0]] + rest)[i].0)
      {
        if i > 1 {
          assert ([ps[0]] + rest)[i - 1] == rest[i - 2] && ([ps[0]] + rest)[i] == rest[i - 1];
        }
      }
    }
  }

  /** The items come out in key order and each exactly as often as it went in. */
  lemma {:induction false} SortByKeySorted<V>(ps: seq<(string, V)>)
    ensures SortedByKey(SortByKey(ps))
    ensures multiset(SortByKey(ps)) == multiset(ps)
    decreases |ps|
  {
    if ps != [] {
      var sorted := SortByKey(ps[1..]);
      SortByKeySorted(ps[1..]);
      InsertSorted(ps[0], sorted);
      InsertPerm(ps[0], sorted);
      assert SortByKey(ps) == Insert(ps[0], sorted);
      assert multiset(ps) == multiset(ps[1..]) + multiset{ps[0]} by {
        assert ps == [ps[0]] + ps[1..];
      }
    }
  }

  lemma SortedMember<V>(ps: seq<(string, V)>, i: nat)
    requires i < |SortByKey(ps)|
    ensures SortByKey(ps)[i] in ps
  {
    SortByKeySorted(ps);
    assert SortByKey(ps)[i] in multiset(ps);
  }

  /** Each value of a list of items replaced by its image under `f`. */
  function MapValues<A, B>(ps: seq<(string, A)>, f: A -> B): (r: seq<(string, B)>)
    ensures |r| == |ps|
    ensures forall i :: 0 <= i < |ps| ==> r[i] == (ps[i].0, f(ps[i].1))
    decreases |ps|
  {
    if ps == [] then [] else [(ps[0].0, f(ps[0].1))] + MapValues(ps[1..], f)
  }

  lemma {:induction false} InsertMap<A, B>(p: (string, A), ps: seq<(string, A)>, f: A -> B)
    ensures Insert((p.0, f(p.1)), MapValues(ps, f)) == MapValues(Insert(p, ps), f)
    decreases |ps|
  {
    if ps != [] && !KeyLe(p.0, ps[0].0) {
      InsertMap(p, ps[1..], f);
      assert MapValues(ps, f)[1..] == MapValues(ps[1..], f);
    }
  }

  /** Sorting looks only at the keys: rendering the values before or after gives the same. */
  lemma {:induction false} SortMapCommute<A, B>(ps: seq<(string, A)>, f: A -> B)
    ensures SortByKey(MapValues(ps, f)) == MapValues(SortByKey(ps), f)
    decreases |ps|
  {
    if ps != [] {
      SortMapCommute(ps[1..], f);
      assert MapValues(ps, f)[1..] == MapValues(ps[1..], f);
      InsertMap(ps[0], SortByKey(ps[1..]), f);
    }
  }

  /** The terminal colour codes around a key. */
  const KeyStart: string := "\U{1b}[0;33m"
  const KeyEnd: string := "\U{1b}[0m"

  /** One rendered item: the coloured key, a colon and the rendered value. */
  function ItemText(p: (string, string)): string {
    KeyStart + p.0 + KeyEnd + ": " + p.1
  }

  function ItemTexts(ps: seq<(string, string)>): (r: seq<string>)
    ensures |r| == |ps|
    ensures forall i :: 0 <= i < |ps| ==> r[i] == ItemText(ps[i])
    decreases |ps|
  {
    if ps == [] then [] else [ItemText(ps[0])] + ItemTexts(ps[1..])
  }

  /** How a value is shown: a dictionary as its sorted items, joined by `, ` and wrapped in
      braces, at every level; anything else as its `str`. */
  function Render(v: Value): string
    decreases v
  {
    match v
    case Scalar(t) => t
    case Dict(items) => "{" + JoinWith(ItemTexts(SortByKey(Rendered(v, 0))), ", ") + "}"
  }

  /** The items of a dictionary from position `i` on, with their values rendered. */
  function Rendered(v: Value, i: nat): (r: seq<(string, string)>)
    requires v.Dict? && i <= |v.items|
    ensures |r| == |v.items| - i
    decreases v, |v.items| - i
  {
    if i == |v.items| then [] else [(v.items[i].0, Render(v.items[i].1))] + Rendered(v, i + 1)
  }

  lemma {:induction false} RenderedIsMap(v: Value, i: nat)
    requires v.Dict? && i <= |v.items|
    ensures Rendered(v, i) == MapValues(v.items[i..], Render)
    decreases |v.items| - i
  {
    if i < |v.items| {
      RenderedIsMap(v, i + 1);
      assert v.items[i..][1..] == v.items[i + 1..];
    }
  }

  /** `format_dict(d)`: the items are sorted and then rendered one at a time, a nested dictionary
      by a recursive call. */
  method FormatDict(v: Value) returns (s: string)
    requires v.Dict?
    ensures "{" + s + "}" == Render(v)
    decreases v, 0
  {
    var sorted := SortByKey(v.items);
    var items: seq<string> := [];
    for i := 0 to |sorted|
      invariant |items| == i
      invariant forall j :: 0 <= j < i ==> items[j] == ItemText((sorted[j].0, Render(sorted[j].1)))
    {
      SortedMember(v.items, i);
      var formatted := FormatValue(sorted[i].1);
      items := items + [ItemText((sorted[i].0, formatted))];
    }
    RenderSorted(v, items);
    s := JoinWith(items, ", ");
  }

  /** Rendering the sorted items one by one gives the dictionary's rendering. */
  lemma RenderSorted(v: Value, items: seq<string>)
    requires v.Dict?
    requires |items| == |SortByKey(v.items)|
    requires forall j :: 0 <= j < |items| ==> items[j] == ItemText((SortByKey(v.items)[j].0, Render(SortByKey(v.items)[j].1)))
    ensures "{" + JoinWith(items, ", ") + "}" == Render(v)
  {
    var sorted := SortByKey(v.items);
    assert items == ItemTexts(MapValues(sorted, Render));
    RenderedIsMap(v, 0);
    assert v.items[0..] == v.items;
    SortMapCommute(v.items, Render);
  }

  /** The value of one item: a nested dictionary in braces, anything else as its `str`. */
  method FormatValue(x: Value) returns (formatted: string)
    ensures formatted == Render(x)
    decreases x, 1
  {
    if x.Dict? {
      var inner := FormatDict(x);
      formatted := "{" + inner + "}";
    } else {
      formatted := x.text;
    }
  }

  /** `color_config(config)`: the whole configuration rendered, in braces. */
  method ColorConfig(config: Value) returns (s: string)
    requires config.Dict?
    ensures s == Render(config)
  {
    var inner := FormatDict(config);
    s := "{" + inner + "}";
  }

  /** A rendered dictionary shows its items in key order, each item once. */
  lemma RenderOrder(v: Value)
    requires v.Dict?
    ensures SortedByKey(SortByKey(Rendered(v, 0)))
    ensures multiset(SortByKey(Rendered(v, 0))) == multiset(Rendered(v, 0))
  {
    SortByKeySorted(Rendered(v, 0));
  }

  // ---------------------------------------------------------------- get_main_link

  /** `get_main_link()`: `configured` is the download link of the settings (None when they cannot
      be read) and `language` what `get_language` gives. `Auto` picks the mirror for Chinese and
      the main host otherwise; any other setting is used as it is. */
  function MainLink(configured: Option<string>, language: Option<string>): (link: string)
    ensures configured.Some? && configured.value != "Auto" ==> link == configured.value
    ensures configured.None? || configured.value == "Auto" ==>
              (link == "hf-mirror.com" <==> language == Some("zh_CN"))
              && (link == "huggingface.co" <==> language != Some("zh_CN"))
  {
    var mainLink := if configured.Some? then configured.value else "Auto";
    if mainLink == "Auto" then (if language == Some("zh_CN") then "hf-mirror.com" else "huggingface.co")
    else mainLink
  }
}
