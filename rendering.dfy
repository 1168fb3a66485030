/** The two line materials: the clipped material of tracked grids, its
    shader uniform, and the flat-colour material of untracked grids. */
module Rendering {
  import opened Lib

  /** A colour in linear space. The conversion from Color is a call into the
      engine and is not part of this model: the value only records which
      colour was converted. Two different colours may well convert to the
      same linear colour in the engine, so nothing here is proved from the
      fact that this tag tells colours apart. */
  datatype LinearRgba = LinearRgba(source: Color)

  function ToLinear(c: Color): (r: LinearRgba)
    ensures r.source == c
  {
    LinearRgba(c)
  }

  /** Material of tracked grids: clips beyond `radius` from the tracked point. */
  datatype ClippedLineMaterial = ClippedLineMaterial(
    color: Color,
    alphaMode: AlphaMode,
    alignment: GridAlignment,
    radius: real,
    offset: real,
    xAxisColor: Color,
    yAxisColor: Color,
    zAxisColor: Color)
  {
    /** The colour this material draws the given axis in. */
    function AxisColor(a: GridAlignment): Color
    {
      match a
      case X => xAxisColor
      case Y => yAxisColor
      case Z => zAxisColor
    }

    /** The blend mode the render pipeline uses: the one the material was
        built with. */
    function AlphaModeOf(): (r: AlphaMode)
      ensures r == alphaMode
    {
      alphaMode
    }

    /** The uniform block handed to the clipped-line shader. */
    function AsBindGroupShaderType(): (u: ClippedLineMaterialUniform)
      ensures u.color == ToLinear(color)
      ensures forall b: GridAlignment :: Component(u.alignment, b) == if b == alignment then 0.0 else 1.0
      ensures u.radius == radius && u.offset == offset
      ensures forall b: GridAlignment :: u.AxisColor(b) == ToLinear(AxisColor(b))
    {
      ClippedLineMaterialUniform(
        ToLinear(color),
        IntoVec3(alignment),
        radius,
        offset,
        ToLinear(xAxisColor),
        ToLinear(yAxisColor),
        ToLinear(zAxisColor))
    }
  }

  /** Builds a clipped material; every axis without an override colour falls
      back to the base colour. */
  function NewClippedLineMaterial(
    color: Color,
    alphaMode: AlphaMode,
    alignment: GridAlignment,
    radius: real,
    offset: real,
    axis: Option<GridAxis>): (m: ClippedLineMaterial)
    ensures m.color == color && m.alphaMode == alphaMode && m.alignment == alignment
    ensures m.radius == radius && m.offset == offset
    ensures m.AlphaModeOf() == alphaMode
    ensures forall a: GridAlignment ::
      m.AxisColor(a) == if axis.Some? && axis.value.GetByAlignment(a).Some?
                        then axis.value.GetByAlignment(a).value
                        else color
  {
    ClippedLineMaterial(
      color,
      alphaMode,
      alignment,
      radius,
      offset,
      if axis.Some? && axis.value.x.Some? then axis.value.x.value else color,
      if axis.Some? && axis.value.y.Some? then axis.value.y.value else color,
      if axis.Some? && axis.value.z.Some? then axis.value.z.value else color)
  }

  /** Without an override, and with the empty override, every axis takes the
      base colour. */
  lemma NoAxisMeansBaseColour(color: Color, alphaMode: AlphaMode, alignment: GridAlignment, radius: real, offset: real)
    ensures forall a: GridAlignment ::
      NewClippedLineMaterial(color, alphaMode, alignment, radius, offset, None).AxisColor(a) == color
    ensures NewClippedLineMaterial(color, alphaMode, alignment, radius, offset, Some(GridAxis.NewEmpty()))
         == NewClippedLineMaterial(color, alphaMode, alignment, radius, offset, None)
  {
  }

  /** The shader-side layout of a clipped material. */
  datatype ClippedLineMaterialUniform = ClippedLineMaterialUniform(
    color: LinearRgba,
    alignment: Vec3,
    radius: real,
    offset: real,
    xAxisColor: LinearRgba,
    yAxisColor: LinearRgba,
    zAxisColor: LinearRgba)
  {
    function AxisColor(a: GridAlignment): LinearRgba
    {
      match a
      case X => xAxisColor
      case Y => yAxisColor
      case Z => zAxisColor
    }
  }

  /** Flat-colour material of untracked grids. */
  datatype SimpleLineMaterial = SimpleLineMaterial(color: LinearRgba, alphaMode: AlphaMode)
  {
    /** The blend mode the render pipeline uses: the one the material was
        built with. */
    function AlphaModeOf(): (r: AlphaMode)
      ensures r == alphaMode
    {
      alphaMode
    }

    /** The material after its colour is replaced; nothing else changes. */
    function SetColor(c: Color): (m: SimpleLineMaterial)
      ensures m.color == ToLinear(c)
      ensures m.AlphaModeOf() == AlphaModeOf()
    {
      this.(color := ToLinear(c))
    }
  }

  function FromLinearRgba(color: LinearRgba, alphaMode: AlphaMode): (m: SimpleLineMaterial)
    ensures m.color == color && m.AlphaModeOf() == alphaMode
  {
    SimpleLineMaterial(color, alphaMode)
  }

  function FromColor(color: Color, alphaMode: AlphaMode): (m: SimpleLineMaterial)
    ensures m.color == ToLinear(color) && m.AlphaModeOf() == alphaMode
  {
    SimpleLineMaterial(ToLinear(color), alphaMode)
  }

  /** Setting a colour gives the material built from that colour, and the
      last colour set wins. */
  lemma SetColorLaws(m: SimpleLineMaterial, c: Color, d: Color)
    ensures FromColor(c, m.alphaMode) == m.SetColor(c)
    ensures m.SetColor(c).SetColor(d) == m.SetColor(d)
    ensures FromColor(c, m.alphaMode).SetColor(d) == FromColor(d, m.alphaMode)
  {
  }
}
