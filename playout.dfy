/**
 * The graphics playout console (`PlayoutControl`): a gallery of templates, a
 * preview of the graphic with a form editing its three lines, and the program
 * output with TAKE and CLEAR.
 */
module Playout {
  import opened Options
  import opened Ui

  datatype Template = Template(id: int, name: string, category: string, thumbnail: string)

  const Templates: seq<Template> := [
    Template(1, "人名条 - 球员", "字幕条", "linear-gradient(135deg, #1e3a8a, #3b82f6)"),
    Template(2, "比分牌 - 顶部", "比分牌", "linear-gradient(135deg, #064e3b, #10b981)"),
    Template(3, "首发阵容", "全屏", "linear-gradient(135deg, #7f1d1d, #ef4444)"),
    Template(4, "比赛统计", "全屏", "linear-gradient(135deg, #4c1d95, #8b5cf6)")
  ]

  /** The graphic's data: a headline, a second line and a statistic. */
  datatype Graphic = Graphic(line1: string, line2: string, stat: string)

  const InitialGraphic: Graphic := Graphic("莱昂内尔·梅西", "前锋 - 巴黎圣日耳曼", "进球: 12")

  /** The three inputs of the data form, each replacing one line. */
  datatype GraphicEdit = SetLine1(text: string) | SetLine2(text: string) | SetStat(text: string)

  function ApplyGraphicEdit(g: Graphic, e: GraphicEdit): (r: Graphic)
    ensures e.SetLine1? ==> r.line1 == e.text && r.line2 == g.line2 && r.stat == g.stat
    ensures e.SetLine2? ==> r.line2 == e.text && r.line1 == g.line1 && r.stat == g.stat
    ensures e.SetStat? ==> r.stat == e.text && r.line1 == g.line1 && r.line2 == g.line2
  {
    match e
    case SetLine1(text) => g.(line1 := text)
    case SetLine2(text) => g.(line2 := text)
    case SetStat(text) => g.(stat := text)
  }

  /** What the program window shows: the current graphic while on air, the no-signal placeholder otherwise. */
  function ProgramOutput(isOnAir: bool, previewData: Graphic): (r: Option<Graphic>)
    ensures r.Some? <==> isOnAir
    ensures r.Some? ==> r.value == previewData
  {
    if isOnAir then Some(previewData) else None
  }

  /** The program badge: red while on air, neutral when idle. */
  function ProgramBadge(isOnAir: bool): (v: Variant)
    ensures v == Error <==> isOnAir
    ensures !isOnAir ==> v == Default
  {
    if isOnAir then Error else Default
  }

  /** The template ids are distinct, so at most one gallery item is highlighted. */
  lemma TemplateIdsDistinct()
    ensures forall i, j :: 0 <= i < j < |Templates| ==> Templates[i].id != Templates[j].id
  {
  }

  class PlayoutControl {
    var selectedTemplate: Template
    var isOnAir: bool
    var previewData: Graphic

    /** The selected template is one of the gallery's. */
    ghost predicate Valid()
      reads this
    {
      selectedTemplate in Templates
    }

    constructor ()
      ensures Valid()
      ensures selectedTemplate == Templates[0] && !isOnAir && previewData == InitialGraphic
    {
      selectedTemplate := Templates[0];
      isOnAir := false;
      previewData := InitialGraphic;
    }

    /**
     * `selected` marks the gallery item whose id is the selected template's: the
     * selected template itself and, the ids being distinct, no other.
     */
    function Highlighted(t: Template): (b: bool)
      reads this
      ensures t == selectedTemplate ==> b
      ensures b && t in Templates && selectedTemplate in Templates ==> t == selectedTemplate
    {
      TemplateIdsDistinct();
      selectedTemplate.id == t.id
    }

    /** TAKE is enabled exactly while the program window shows no signal and the badge is idle. */
    function TakeEnabled(): (b: bool)
      reads this
      ensures b <==> Program() == None
      ensures b <==> ProgramBadge(isOnAir) == Default
    {
      !isOnAir
    }

    /** CLEAR is enabled exactly while a graphic is on air, so exactly one of TAKE and CLEAR is. */
    function ClearEnabled(): (b: bool)
      reads this
      ensures b <==> Program().Some?
      ensures b != TakeEnabled()
    {
      isOnAir
    }

    /** The program window: the graphic being edited while on air, the no-signal placeholder otherwise. */
    function Program(): (r: Option<Graphic>)
      reads this
      ensures r.Some? <==> isOnAir
      ensures r.Some? ==> r.value == previewData
      ensures r == ProgramOutput(isOnAir, previewData)
    {
      ProgramOutput(isOnAir, previewData)
    }

    /** A click on a gallery item selects it; nothing else changes. */
    method SelectTemplate(t: Template)
      requires Valid() && t in Templates
      modifies this`selectedTemplate
      ensures Valid() && selectedTemplate == t
      ensures forall u :: u in Templates ==> (Highlighted(u) <==> u == t)
    {
      selectedTemplate := t;
    }

    /** `handleTake`: the current graphic goes on air. */
    method Take()
      requires Valid()
      modifies this`isOnAir
      ensures Valid() && isOnAir
      ensures Program() == Some(previewData) && !TakeEnabled() && ClearEnabled()
      ensures old(TakeEnabled()) ==> isOnAir != old(isOnAir)
    {
      isOnAir := true;
    }

    /** `handleClear`: the program output goes back to no signal. */
    method Clear()
      requires Valid()
      modifies this`isOnAir
      ensures Valid() && !isOnAir
      ensures Program() == None && TakeEnabled() && !ClearEnabled()
      ensures old(ClearEnabled()) ==> isOnAir != old(isOnAir)
    {
      isOnAir := false;
    }

    /**
     * An input of the data form: one line of the graphic changes. The program window
     * reads the same state, so while on air the edit is live at once, without another TAKE.
     */
    method EditGraphic(e: GraphicEdit)
      requires Valid()
      modifies this`previewData
      ensures Valid()
      ensures previewData == ApplyGraphicEdit(old(previewData), e)
      ensures isOnAir ==> Program() == Some(ApplyGraphicEdit(old(previewData), e))
    {
      previewData := ApplyGraphicEdit(previewData, e);
    }
  }
}
