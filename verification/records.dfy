/** Record identifiers. Seeded goals and medications, and goals added on the
    goals page, carry uuid strings; `add_goal` (never called) and
    `add_medication` use the list length, an integer. Python compares the two
    kinds by value and a string never equals an integer, so the model keeps
    them apart as two constructors. The record operations do not assume ids
    are unique. */
module Records {
  datatype RecordId = Uuid(text: string) | Index(n: nat)
}
