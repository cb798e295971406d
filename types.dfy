/** The dashboard's records (`Polygon`, `DataSource`, `ColorRule`). */
module Types {

  import opened Geometry

  /** The five comparison operators a colour rule may name. */
  datatype Operator = Less | Greater | LessOrEqual | GreaterOrEqual | Equal

  datatype ColorRule = ColorRule(operator: Operator, threshold: real, color: string)

  /** A classification source: `field` names the sample attribute; only the temperature is ever read. */
  datatype DataSource = DataSource(id: int, name: string, field: string, colorRules: seq<ColorRule>)

  /**
   * A completed polygon. `weatherData` keeps only the `temperature_2m` of
   * each hourly sample, in order; the `hour` index and the timestamp
   * string are not modelled.
   */
  datatype Polygon = Polygon(id: int, points: seq<Point>, dataSource: string, weatherData: seq<real>)

}
