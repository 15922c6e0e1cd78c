/**
 * The records of types/type.d.ts, as Dafny values.
 *
 * JavaScript's `number` is `JsNum`: a real value or NaN (the result `Number()`
 * gives for text that is not a number). The two id fields that the home screen
 * coerces with `Number(...)` after a fetch (`Provider.categoryId`, `Category.id`)
 * are `Scalar`s, because on the wire they may arrive as text as well as numbers.
 */
module Types {

  datatype Option<T> = None | Some(value: T)

  /** A JavaScript number: NaN or a finite value. Infinities are not modelled. */
  datatype JsNum = NaN | Finite(value: real)

  /** A field that the server may send as a number or as text. */
  datatype Scalar = Number(num: JsNum) | Text(text: string)

  datatype Location = Location(lat: real, lng: real, city: string)

  datatype Provider = Provider(
    id: int,
    name: string,
    categoryId: Scalar,
    rating: real,
    pricePerHour: real,
    experienceYears: real,
    description: string,
    image: string,
    gallery: Option<seq<string>>,
    location: Location
  )

  /** The three values of `Booking.status`. */
  datatype Status = Pending | Confirmed | Cancelled

  datatype Booking = Booking(
    id: Option<int>,
    providerId: int,
    userId: int,
    date: string,   // YYYY-MM-DD
    time: string,   // HH:mm
    hours: real,
    totalCost: real,
    status: Status
  )

  datatype Category = Category(id: Scalar, name: string, icon: string)
}
