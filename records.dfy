/** The JSON record shapes the GitHub REST API returns (internal/github/model.go). */
module Records {
  /** A float64 carried as its IEEE-754 bit pattern; the exporter does no arithmetic on it. */
  datatype Float64 = Float64(bits: bv64)

  datatype Assignee = Assignee(login: string)

  datatype CopilotSeat = CopilotSeat(assignee: Assignee)

  datatype SeatsResponse = SeatsResponse(totalSeats: int, seats: seq<CopilotSeat>)

  datatype UsageItem = UsageItem(
    product: string,
    sku: string,
    model: string,
    unitType: string,
    pricePerUnit: Float64,
    grossQuantity: Float64,
    grossAmount: Float64,
    discountQuantity: Float64,
    discountAmount: Float64,
    netQuantity: Float64,
    netAmount: Float64)

  datatype UsageResponse = UsageResponse(enterprise: string, user: string, usageItems: seq<UsageItem>)
}
