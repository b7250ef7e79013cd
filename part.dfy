/** The part configuration a customer submits, echoed back in every quote. */
module Part {

  /** The four measurements of the part, in millimetres. */
  datatype Dimensions = Dimensions(length: real, width: real, thickness: real, holeDiameter: real)

  datatype PartConfiguration = PartConfiguration(
    material: string,
    surfaceTreatment: string,
    dimensions: Dimensions,
    quantity: int)
}
