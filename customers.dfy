/** The customer entity, as the in-memory store and the service hold it. */
module Customers {
  import opened Wrappers

  /** Java `long`: customer ids. */
  type Long = x: int | -0x8000_0000_0000_0000 <= x < 0x8000_0000_0000_0000

  /** Java `int`: ages. */
  type Int32 = x: int | -0x8000_0000 <= x < 0x8000_0000

  datatype Gender = Male | Female

  /** A customer record. `id` is absent until the persistent store assigns one;
      `password` holds whatever the caller stored (the service stores the encoder's
      output); `profileImageId` is absent until an image is uploaded. */
  datatype Customer = Customer(
    id: Option<Long>,
    name: string,
    email: string,
    password: string,
    age: Int32,
    gender: Gender,
    profileImageId: Option<string>)
}
