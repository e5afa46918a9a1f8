/** The client record the backend returns; `| null` fields are `Option`s. */
module ClientModel {
  import opened Wrappers

  datatype Client = Client(
    id: int,
    name: string,
    email: string,
    phone: string,
    country_code: Option<string>,
    company: string,
    position: string,
    profile_pic: Option<string>,
    country: string,
    state: Option<string>,
    city: Option<string>,
    address: Option<string>,
    postal_code: Option<string>,
    timezone: Option<string>,
    language: Option<string>,
    bill_to: Option<string>,
    tax_id: Option<string>,
    billing_address: Option<string>,
    billing_phone: Option<string>,
    billing_email: Option<string>,
    details: Option<string>,
    reference: Option<string>,
    shared_files: int,
    can_access_portal: int,
    last_update: string)
}
