/**
 * The pad-added handler of the interactive receiving example: a new source
 * pad of the bridge is linked to the "sink" pad of the depayloader its
 * name selects. Every failure on the way panics; none is skipped.
 */
module Routing {
  import opened Wrappers

  /** The two depayloader branches of the example pipeline. */
  datatype Branch = VideoDepay | AudioDepay

  /** A source pad announced by the bridge: its name, and an identity for the link step. */
  datatype SrcPad = SrcPad(name: string, id: nat)

  /** A pad of a depayloader, as a token. */
  datatype SinkPad = SinkPad(id: nat)

  /** A depayloader element, reduced to its static "sink" pad if it has one. */
  datatype DepayElement = DepayElement(sinkPad: Option<SinkPad>)

  /**
   * Why the handler panics: the `unreachable!`, which carries no message of
   * its own, or one of its two `expect`s. The branch of the latter two is
   * an annotation of the model, which the panic message does not include.
   */
  datatype RoutingPanic = UnexpectedPad | NoSinkPad(branch: Branch) | LinkFailed(branch: Branch)

  /** A link the handler made. */
  datatype Link = Link(src: SrcPad, branch: Branch, sink: SinkPad)

  /** The branch a pad name selects. */
  function BranchFor(padName: string): (r: Result<Branch, RoutingPanic>)
    ensures r == Ok(VideoDepay) <==> padName == "src_0"
    ensures r == Ok(AudioDepay) <==> padName == "src_1"
    ensures r.Err? <==> padName != "src_0" && padName != "src_1"
    ensures r.Err? ==> r.error == UnexpectedPad
  {
    match padName
    case "src_0" => Ok(VideoDepay)
    case "src_1" => Ok(AudioDepay)
    case _ => Err(UnexpectedPad)
  }

  /** The depayloader of a branch. */
  function DepayOf(branch: Branch, videoDepay: DepayElement, audioDepay: DepayElement): DepayElement
  {
    match branch
    case VideoDepay => videoDepay
    case AudioDepay => audioDepay
  }

  /**
   * The whole handler: choose the branch from the pad's name, take its
   * depayloader's "sink" pad, link. `link` is the outcome of `Pad::link`.
   */
  function OnPadAdded(pad: SrcPad, videoDepay: DepayElement, audioDepay: DepayElement,
                      link: (SrcPad, SinkPad) -> bool): (r: Result<Link, RoutingPanic>)
    ensures BranchFor(pad.name).Err? ==> r == Err(UnexpectedPad)
    ensures r.Ok? <==>
              BranchFor(pad.name).Ok? &&
              DepayOf(BranchFor(pad.name).value, videoDepay, audioDepay).sinkPad.Some? &&
              link(pad, DepayOf(BranchFor(pad.name).value, videoDepay, audioDepay).sinkPad.value)
    ensures r.Ok? ==>
              r.value.src == pad && r.value.branch == BranchFor(pad.name).value &&
              Some(r.value.sink) == DepayOf(r.value.branch, videoDepay, audioDepay).sinkPad
    ensures BranchFor(pad.name).Ok? && DepayOf(BranchFor(pad.name).value, videoDepay, audioDepay).sinkPad.None? ==>
              r == Err(NoSinkPad(BranchFor(pad.name).value))
    ensures BranchFor(pad.name).Ok? && DepayOf(BranchFor(pad.name).value, videoDepay, audioDepay).sinkPad.Some? &&
            !link(pad, DepayOf(BranchFor(pad.name).value, videoDepay, audioDepay).sinkPad.value) ==>
              r == Err(LinkFailed(BranchFor(pad.name).value))
  {
    match BranchFor(pad.name)
    case Err(e) => Err(e)
    case Ok(branch) =>
      match DepayOf(branch, videoDepay, audioDepay).sinkPad
      case None => Err(NoSinkPad(branch))
      case Some(sink) => if link(pad, sink) then Ok(Link(pad, branch, sink)) else Err(LinkFailed(branch))
  }

  /** The two expected pads go to different branches. */
  lemma {:induction false} BranchesDistinct(a: string, b: string)
    requires BranchFor(a).Ok? && BranchFor(b).Ok? && a != b
    ensures BranchFor(a).value != BranchFor(b).value
  {
  }

  /** Two pads of the same name are routed alike: to the same branch and sink pad, or both to the same panic, unless only the link step tells them apart. */
  lemma {:induction false} RoutingDependsOnName(p: SrcPad, q: SrcPad, videoDepay: DepayElement, audioDepay: DepayElement,
                                                link: (SrcPad, SinkPad) -> bool)
    requires p.name == q.name
    ensures var rp, rq := OnPadAdded(p, videoDepay, audioDepay, link), OnPadAdded(q, videoDepay, audioDepay, link);
            (rp.Ok? && rq.Ok? ==> rp.value.branch == rq.value.branch && rp.value.sink == rq.value.sink) &&
            (rp.Err? && !rp.error.LinkFailed? ==> rq == rp)
  {
  }
}
