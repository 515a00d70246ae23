/** The revenue figure of GET /dashboard/stats (index.js): the total of the
    first row of the revenue grouping, or 0. */
module Dashboard {
  import opened Wrappers

  /** One row of the `$group` result; None stands for a total that is NaN. */
  datatype RevenueRow = RevenueRow(totalRevenue: Option<real>)

  /** `revenueData[0]?.totalRevenue || 0`: no row, a NaN total and a zero
      total all give 0; otherwise the first row's total. */
  function TotalRevenue(rows: seq<RevenueRow>): (revenue: real)
    ensures rows == [] ==> revenue == 0.0
    ensures revenue == 0.0 || (rows != [] && rows[0].totalRevenue == Some(revenue))
    ensures rows != [] && rows[0].totalRevenue.Some? ==> revenue == rows[0].totalRevenue.value
  {
    if rows == [] then 0.0
    else match rows[0].totalRevenue
      case None => 0.0
      case Some(total) => if total == 0.0 then 0.0 else total
  }

  /** Only the first row is read. */
  lemma OnlyFirstRowCounts(rows: seq<RevenueRow>, more: seq<RevenueRow>)
    requires rows != []
    ensures TotalRevenue(rows + more) == TotalRevenue(rows[..1])
  {
    assert (rows + more)[0] == rows[..1][0];
  }
}
