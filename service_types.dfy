/** The record shapes of the catalog and of appointments
    (src/types/service.ts, src/types/appointment.ts). Where the interface and the
    zod schema disagree, the shape follows the schema: the two lists of
    `ServiceDetails` are required, not optional. */
module ServiceTypes {
  import opened Wrappers

  datatype ServiceDetails = ServiceDetails(
    productsUsed: seq<string>,
    contraindications: seq<string>)

  /** A catalog entry. `duration` is in minutes; `gallery` is in display order. */
  datatype Service = Service(
    id: string,
    name: string,
    category: string,
    price: real,
    duration: int,
    image: string,
    gallery: seq<string>,
    description: string,
    details: Option<ServiceDetails>)

  /** What the booking form submits; `date` is `YYYY-MM-DD`, `time` is `HH:MM`. */
  datatype AppointmentRequest = AppointmentRequest(
    serviceId: string,
    customerName: string,
    customerPhone: string,
    date: string,
    time: string)

  datatype AppointmentResponse = AppointmentResponse(
    status: string,
    message: string,
    appointmentId: string,
    estimatedPrice: real)
}
