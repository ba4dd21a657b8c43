/**
 * The visibility predicates (`cumulativeOffset`, `isEnter` and `isInWindow`
 * in js/scrollAnimation.js). Layout values read from the browser
 * (`getBoundingClientRect`, `pageYOffset`, `innerHeight`, the offset
 * properties) are whole pixels given as inputs.
 */
module Geometry {
  import opened Wrappers

  /** An element as offset arithmetic sees it: its own `offsetTop` and
      `offsetLeft` (None where the property is missing) and its `offsetParent`
      (None where it is null), which is an element of the same kind. */
  datatype Element = Element(offsetTop: Option<int>, offsetLeft: Option<int>, offsetParent: Option<Element>)

  /** JavaScript's `v || 0` on a numeric property. */
  function OrZero(v: Option<int>): int
  {
    if v.Some? then v.value else 0
  }

  /** The element followed by every `offsetParent` above it, nearest first. */
  function Ancestry(e: Element): (chain: seq<Element>)
    ensures |chain| >= 1 && chain[0] == e
    ensures forall i :: 0 <= i < |chain| - 1 ==> chain[i].offsetParent == Some(chain[i + 1])
    ensures chain[|chain| - 1].offsetParent.None?
    decreases e
  {
    match e.offsetParent
    case None => [e]
    case Some(p) => [e] + Ancestry(p)
  }

  /** Sum of `offsetTop || 0` over a chain of elements. */
  function SumTop(chain: seq<Element>): int
  {
    if chain == [] then 0 else OrZero(chain[0].offsetTop) + SumTop(chain[1..])
  }

  /** Sum of `offsetLeft || 0` over a chain of elements. */
  function SumLeft(chain: seq<Element>): int
  {
    if chain == [] then 0 else OrZero(chain[0].offsetLeft) + SumLeft(chain[1..])
  }

  /** The top coordinate `cumulativeOffset(node).top` yields. */
  function CumulativeTop(e: Element): int
  {
    SumTop(Ancestry(e))
  }

  /** `cumulativeOffset`: walks from the node up the offsetParent chain
      (do-while: the node itself is always counted), adding up the offsets. */
  method CumulativeOffset(node: Element) returns (top: int, left: int)
    ensures top == SumTop(Ancestry(node)) && left == SumLeft(Ancestry(node))
  {
    top, left := 0, 0;
    var n := node;
    while true
      invariant top + SumTop(Ancestry(n)) == SumTop(Ancestry(node))
      invariant left + SumLeft(Ancestry(n)) == SumLeft(Ancestry(node))
      decreases n
    {
      var chain := Ancestry(n);
      assert SumTop(chain) == OrZero(n.offsetTop) + SumTop(chain[1..]);
      top := top + OrZero(n.offsetTop);
      left := left + OrZero(n.offsetLeft);
      if n.offsetParent.None? {
        assert chain[1..] == [];
        break;
      }
      assert chain[1..] == Ancestry(n.offsetParent.value);
      n := n.offsetParent.value;
    }
  }

  /** What the predicates read from the browser during one check: the element,
      the top and height of its bounding rectangle (whose bottom is top plus
      height), the vertical scroll offset and the viewport height. */
  datatype Layout = Layout(node: Element, rectTop: int, rectHeight: nat, pageYOffset: int, innerHeight: int)

  function RectBottom(g: Layout): int
  {
    g.rectTop + g.rectHeight
  }

  /** The only mode string that selects the bounding-rectangle branch; every
      other string, "DOMPosition" and the misspelt "DOMposition" alike, takes
      the offset-chain branch. */
  const RenderPosition: string := "renderPosition"

  /** `isEnter`: the element's top has come up past the viewport's bottom edge,
      moved by `offsetStart` pixels. */
  predicate IsEnter(g: Layout, offsetStart: int, mode: string)
  {
    if mode == RenderPosition then g.rectTop - g.innerHeight + offsetStart <= 0
    else g.pageYOffset >= CumulativeTop(g.node) + offsetStart - g.innerHeight
  }

  /** `isInWindow`: the `isEnter` condition, and the element's bottom has not
      yet left past the viewport's top edge, moved by `offsetEnd` pixels. */
  function IsInWindow(g: Layout, offsetStart: int, offsetEnd: int, mode: string): (r: bool)
    ensures r ==> IsEnter(g, offsetStart, mode)
  {
    if mode == RenderPosition then
      g.rectTop - g.innerHeight + offsetStart <= 0 && RectBottom(g) + offsetEnd >= 0
    else
      g.pageYOffset >= CumulativeTop(g.node) + offsetStart - g.innerHeight &&
      g.pageYOffset <= g.rectHeight + CumulativeTop(g.node) + offsetEnd
  }

  /** A larger `offsetStart` asks for more scrolling: whatever has entered
      with some offset has also entered with any smaller one. */
  lemma EnterShrinksAsOffsetGrows(g: Layout, a: int, b: int, mode: string)
    requires b <= a
    ensures IsEnter(g, a, mode) ==> IsEnter(g, b, mode)
  {
  }

  /** Any mode string other than "renderPosition" behaves like "DOMPosition". */
  lemma OtherModesAreDomPosition(g: Layout, offsetStart: int, offsetEnd: int, mode: string)
    requires mode != RenderPosition
    ensures IsEnter(g, offsetStart, mode) == IsEnter(g, offsetStart, "DOMPosition")
    ensures IsInWindow(g, offsetStart, offsetEnd, mode) == IsInWindow(g, offsetStart, offsetEnd, "DOMPosition")
  {
  }
}
