/**
 * The records the client receives from and sends to the server
 * (frontend/src/types/index.ts). Prices are whole currency units and dates
 * are the ISO `YYYY-MM-DD` strings the client handles.
 */
module Types {

  /** The identity the client reconstructs at login; `role` is "USER" or "ADMIN" as sent by the server. */
  datatype User = User(id: int, name: string, email: string, role: string)

  datatype Destination = Destination(
    id: int,
    name: string,
    country: string,
    city: string,
    description: string,
    imageUrl: string,
    price: int)

  /** Body of `POST /bookings`. */
  datatype BookingRequest = BookingRequest(destinationId: int, startDate: string, endDate: string, travelers: int)

  /** A booking as listed by the server; `status` arrives as a JSON string. */
  datatype BookingResponse = BookingResponse(
    id: int,
    destination: Destination,
    startDate: string,
    endDate: string,
    travelers: int,
    status: string,
    createdAt: string)

  datatype FavoriteResponse = FavoriteResponse(id: int, destination: Destination)

  const PENDING: string := "PENDING"
  const CONFIRMED: string := "CONFIRMED"
  const CANCELLED: string := "CANCELLED"

  /** The three statuses the server can send. */
  predicate IsKnownStatus(s: string) {
    s == PENDING || s == CONFIRMED || s == CANCELLED
  }

  /** `err.message || fallback`: an empty message is replaced by the page's fallback text. */
  function ErrorText(message: string, fallback: string): (r: string)
    ensures message != "" ==> r == message
    ensures message == "" ==> r == fallback
  {
    if message != "" then message else fallback
  }
}
