/** The records and enumerations of the LifeLink front end (types.ts), and the two
    wrappers the model uses for absent values and for outcomes with an error. */
module Types {

  datatype Option<T> = None | Some(value: T)

  datatype Result<T, E> = Ok(value: T) | Err(error: E)

  /** `UserRole`. */
  datatype UserRole = Donor | Admin | Hospital

  /** `User.status`. */
  datatype Status = Active | Inactive

  /** An account of the roster. `password` and `location` are optional fields in the
      source and are `None` when absent; the donation counters are whole numbers. */
  datatype User = User(
    id: string,
    name: string,
    email: string,
    password: Option<string>,
    bloodType: string,
    role: UserRole,
    totalDonations: nat,
    livesSaved: nat,
    lastDonationDate: string,
    location: Option<string>,
    status: Status)

  /** `ChatMessage.role`: who wrote the message. */
  datatype Author = FromUser | FromModel

  /** A chat message; the timestamp is the clock reading passed in by the caller. */
  datatype ChatMessage = ChatMessage(id: string, role: Author, text: string, timestamp: int)

  /** `AppView`: the six screens of the application. */
  datatype AppView = Dashboard | Donate | Assistant | Profile | UserManagement | FindDonor

  /** A doctor of the appointment directory (the record the appointment browser
      imports; its photo and rating are not modelled). */
  datatype Doctor = Doctor(id: string, name: string, hospital: string, specialty: string, availability: string)
}
