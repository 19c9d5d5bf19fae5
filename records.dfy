/** The rows the application stores and passes around. */
module Records {
  import opened Wrappers
  import opened Js

  /**
   * A row of the `employees` table (backend/db.js:61-68). Only `id` and
   * `name` always hold text; None is SQL NULL, which JavaScript sees as `null`.
   */
  datatype Employee = Employee(
    id: string,
    name: string,
    company: Option<string>,
    docId: Option<string>,
    jobTitle: Option<string>,
    notes: Option<string>)

  /**
   * A row of the `requests` table (backend/db.js:79-88) as `getAllRequests`
   * returns it, with `employeeIds` parsed. Timestamps are milliseconds.
   */
  datatype Request = Request(
    id: string,
    passType: string,
    status: string,
    employeeIds: seq<string>,
    createdAt: int,
    updatedAt: int,
    notes: Option<string>,
    createdBy: string)

  /**
   * The JSON body accepted by `createRequest` and `updateRequest`
   * (`type` is `passType` here).
   */
  datatype RequestBody = RequestBody(
    id: Field<string>,
    passType: Field<string>,
    status: Field<string>,
    employeeIds: Field<seq<string>>,
    notes: Field<string>,
    createdBy: Field<string>)
}
