/** The mail record of src/types.rs. */
module Types {
  /** One stored message: its payload and the identifier it is addressed to. */
  datatype Email = Email(payload: string, destination: string)
}
