/**
  The customer-record service: a store keyed by `customerId` with unique emails,
  soft delete (`activo == false`) and field-by-field patching of the address.
*/
module Customers {
  import opened Wrappers
  import opened Clock

  /** Every field is a Java String that may be null. */
  datatype Address = Address(
    calle: Option<string>,
    numeroExterior: Option<string>,
    numeroInterior: Option<string>,
    colonia: Option<string>,
    ciudad: Option<string>,
    estado: Option<string>,
    codigoPostal: Option<string>,
    pais: Option<string>)

  datatype Customer = Customer(
    customerId: string,
    nombre: string,
    apellidoPaterno: string,
    apellidoMaterno: string,
    email: string,
    direccionEnvio: Address,
    activo: bool,
    fechaCreacion: Option<DateTime>,
    fechaActualizacion: Option<DateTime>)

  /** The create and the full-update command carry the same fields. */
  datatype CustomerCommand = CustomerCommand(
    nombre: string,
    apellidoPaterno: string,
    apellidoMaterno: string,
    email: string,
    calle: Option<string>,
    numeroExterior: Option<string>,
    numeroInterior: Option<string>,
    colonia: Option<string>,
    ciudad: Option<string>,
    estado: Option<string>,
    codigoPostal: Option<string>,
    pais: Option<string>)

  datatype PatchAddressCommand = PatchAddressCommand(
    calle: Option<string>,
    numeroExterior: Option<string>,
    numeroInterior: Option<string>,
    colonia: Option<string>,
    ciudad: Option<string>,
    estado: Option<string>,
    codigoPostal: Option<string>,
    pais: Option<string>)

  datatype PatchCustomerCommand = PatchCustomerCommand(email: Option<string>, direccionEnvio: Option<PatchAddressCommand>)

  datatype CustomerError = CustomerNotFound(customerId: string) | CustomerAlreadyExists(email: string)

  const DefaultPais: string := "México"

  /** The address a create or full update builds: the command's fields, with the country defaulting to México. */
  function AddressFromCommand(cmd: CustomerCommand): (a: Address)
    ensures a.pais.Some?
    ensures cmd.pais.Some? ==> a.pais == cmd.pais
    ensures cmd.pais.None? ==> a.pais == Some(DefaultPais)
    ensures a.(pais := cmd.pais) == Address(cmd.calle, cmd.numeroExterior, cmd.numeroInterior, cmd.colonia,
                                            cmd.ciudad, cmd.estado, cmd.codigoPostal, cmd.pais)
  {
    Address(cmd.calle, cmd.numeroExterior, cmd.numeroInterior, cmd.colonia, cmd.ciudad, cmd.estado,
            cmd.codigoPostal, if cmd.pais != None then cmd.pais else Some(DefaultPais))
  }

  /** A patched field: the patch's value when it has one, the old value otherwise. */
  predicate Merged(result: Option<string>, patch: Option<string>, previous: Option<string>)
  {
    (patch.Some? ==> result == patch) && (patch.None? ==> result == previous)
  }

  /** One `x != null ? x : existing.x` of the merge. */
  function MergeField(patch: Option<string>, previous: Option<string>): (result: Option<string>)
    ensures Merged(result, patch, previous)
  {
    if patch != None then patch else previous
  }

  /** `buildPatchedAddress`: no patch keeps the address; otherwise each null field keeps its old value. */
  function BuildPatchedAddress(existing: Address, patch: Option<PatchAddressCommand>): (a: Address)
    ensures patch.None? ==> a == existing
    ensures patch.Some? ==>
      var p := patch.value;
      && Merged(a.calle, p.calle, existing.calle)
      && Merged(a.numeroExterior, p.numeroExterior, existing.numeroExterior)
      && Merged(a.numeroInterior, p.numeroInterior, existing.numeroInterior)
      && Merged(a.colonia, p.colonia, existing.colonia)
      && Merged(a.ciudad, p.ciudad, existing.ciudad)
      && Merged(a.estado, p.estado, existing.estado)
      && Merged(a.codigoPostal, p.codigoPostal, existing.codigoPostal)
      && Merged(a.pais, p.pais, existing.pais)
  {
    match patch
    case None => existing
    case Some(p) =>
      Address(
        MergeField(p.calle, existing.calle),
        MergeField(p.numeroExterior, existing.numeroExterior),
        MergeField(p.numeroInterior, existing.numeroInterior),
        MergeField(p.colonia, existing.colonia),
        MergeField(p.ciudad, existing.ciudad),
        MergeField(p.estado, existing.estado),
        MergeField(p.codigoPostal, existing.codigoPostal),
        MergeField(p.pais, existing.pais))
  }

  const EmptyPatch: PatchAddressCommand := PatchAddressCommand(None, None, None, None, None, None, None, None)

  /** A patch whose every field is null changes nothing. */
  lemma EmptyPatchIsIdentity(existing: Address)
    ensures BuildPatchedAddress(existing, Some(EmptyPatch)) == existing
  {
  }

  /** Applying the same patch twice is the same as applying it once. */
  lemma PatchIdempotent(existing: Address, patch: Option<PatchAddressCommand>)
    ensures BuildPatchedAddress(BuildPatchedAddress(existing, patch), patch) == BuildPatchedAddress(existing, patch)
  {
  }

  /** The result depends on the old address only in the fields the patch leaves null. */
  lemma FullPatchReplaces(a: Address, b: Address, p: PatchAddressCommand)
    requires p.calle.Some? && p.numeroExterior.Some? && p.numeroInterior.Some? && p.colonia.Some?
    requires p.ciudad.Some? && p.estado.Some? && p.codigoPostal.Some? && p.pais.Some?
    ensures BuildPatchedAddress(a, Some(p)) == BuildPatchedAddress(b, Some(p))
  {
  }

  class CustomerService {
    /** The repository port, keyed by the business id `customerId`. */
    var customers: map<string, Customer>

    /** Each record sits under its own id, and no two records share an email. */
    ghost predicate Valid()
      reads this
    {
      && (forall id :: id in customers ==> customers[id].customerId == id)
      && (forall a, b :: a in customers && b in customers && a != b ==> customers[a].email != customers[b].email)
    }

    constructor (initial: map<string, Customer>)
      requires forall id :: id in initial ==> initial[id].customerId == id
      requires forall a, b :: a in initial && b in initial && a != b ==> initial[a].email != initial[b].email
      ensures Valid() && customers == initial
    {
      customers := initial;
    }

    /** `existsByEmail`: some record, active or not, has this email. */
    predicate EmailInUse(email: string)
      reads this
    {
      exists id :: id in customers && customers[id].email == email
    }

    /** `save`: replaces the record with the same customerId, or adds one. */
    method Save(c: Customer)
      requires Valid()
      requires forall id :: id in customers && id != c.customerId ==> customers[id].email != c.email
      modifies this
      ensures Valid()
      ensures customers == old(customers)[c.customerId := c]
    {
      customers := customers[c.customerId := c];
    }

    /** `getCustomerById`: found only when the record exists and is active. */
    function GetCustomerById(customerId: string): (r: Result<Customer, CustomerError>)
      reads this
      requires Valid()
      ensures r.Success? <==> customerId in customers && customers[customerId].activo
      ensures r.Success? ==> r.value == customers[customerId] && r.value.customerId == customerId
      ensures r.Failure? ==> r.error == CustomerNotFound(customerId)
    {
      if customerId in customers && customers[customerId].activo then Success(customers[customerId])
      else Failure(CustomerNotFound(customerId))
    }

    /** `customerExists`: a record is present and active. */
    function CustomerExists(customerId: string): (b: bool)
      reads this
      requires Valid()
      ensures b <==> customerId in customers && customers[customerId].activo
      ensures b <==> GetCustomerById(customerId).Success?
    {
      if customerId in customers then customers[customerId].activo else false
    }

    /** `createCustomer`: refused when the email is taken; otherwise stores an active customer under `newId`. */
    method CreateCustomer(cmd: CustomerCommand, newId: string) returns (r: Result<Customer, CustomerError>)
      requires Valid()
      modifies this
      ensures Valid()
      ensures old(EmailInUse(cmd.email)) ==> r == Failure(CustomerAlreadyExists(cmd.email)) && customers == old(customers)
      ensures !old(EmailInUse(cmd.email)) ==>
        && r == Success(Customer(newId, cmd.nombre, cmd.apellidoPaterno, cmd.apellidoMaterno, cmd.email,
                                 AddressFromCommand(cmd), true, None, None))
        && customers == old(customers)[newId := r.value]
    {
      if EmailInUse(cmd.email) {
        return Failure(CustomerAlreadyExists(cmd.email));
      }
      var customer := Customer(newId, cmd.nombre, cmd.apellidoPaterno, cmd.apellidoMaterno, cmd.email,
                               AddressFromCommand(cmd), true, None, None);
      Save(customer);
      return Success(customer);
    }

    /**
      `updateCustomer`: replaces names, email and address of an active customer,
      keeping its id, `activo` and creation time; a new email must not be in use.
    */
    method UpdateCustomer(customerId: string, cmd: CustomerCommand) returns (r: Result<Customer, CustomerError>)
      requires Valid()
      modifies this
      ensures Valid()
      ensures r.Failure? ==> customers == old(customers)
      ensures old(GetCustomerById(customerId)).Failure? ==> r == Failure(CustomerNotFound(customerId))
      ensures old(GetCustomerById(customerId)).Success? ==>
        var existing := old(customers)[customerId];
        if existing.email != cmd.email && old(EmailInUse(cmd.email)) then
          r == Failure(CustomerAlreadyExists(cmd.email))
        else
          && r == Success(Customer(customerId, cmd.nombre, cmd.apellidoPaterno, cmd.apellidoMaterno, cmd.email,
                                   AddressFromCommand(cmd), existing.activo, existing.fechaCreacion, None))
          && customers == old(customers)[customerId := r.value]
    {
      var found := GetCustomerById(customerId);
      if found.Failure? {
        return Failure(found.error);
      }
      var existing := found.value;
      if existing.email != cmd.email && EmailInUse(cmd.email) {
        return Failure(CustomerAlreadyExists(cmd.email));
      }
      var updated := Customer(existing.customerId, cmd.nombre, cmd.apellidoPaterno, cmd.apellidoMaterno,
                              cmd.email, AddressFromCommand(cmd), existing.activo, existing.fechaCreacion, None);
      Save(updated);
      return Success(updated);
    }

    /**
      `patchCustomer`: the names never change; a null email keeps the old one, and the
      address is merged field by field.
    */
    method PatchCustomer(customerId: string, cmd: PatchCustomerCommand) returns (r: Result<Customer, CustomerError>)
      requires Valid()
      modifies this
      ensures Valid()
      ensures r.Failure? ==> customers == old(customers)
      ensures old(GetCustomerById(customerId)).Failure? ==> r == Failure(CustomerNotFound(customerId))
      ensures old(GetCustomerById(customerId)).Success? ==>
        var existing := old(customers)[customerId];
        if cmd.email.Some? && existing.email != cmd.email.value && old(EmailInUse(cmd.email.value)) then
          r == Failure(CustomerAlreadyExists(cmd.email.value))
        else
          && r == Success(existing.(email := cmd.email.GetOr(existing.email),
                                    direccionEnvio := BuildPatchedAddress(existing.direccionEnvio, cmd.direccionEnvio),
                                    fechaActualizacion := None))
          && customers == old(customers)[customerId := r.value]
    {
      var found := GetCustomerById(customerId);
      if found.Failure? {
        return Failure(found.error);
      }
      var existing := found.value;
      if cmd.email.Some? && existing.email != cmd.email.value && EmailInUse(cmd.email.value) {
        return Failure(CustomerAlreadyExists(cmd.email.value));
      }
      var address := BuildPatchedAddress(existing.direccionEnvio, cmd.direccionEnvio);
      var patched := Customer(existing.customerId, existing.nombre, existing.apellidoPaterno,
                              existing.apellidoMaterno, if cmd.email.Some? then cmd.email.value else existing.email,
                              address, existing.activo, existing.fechaCreacion, None);
      Save(patched);
      return Success(patched);
    }

    /** `deleteCustomer`: a soft delete that keeps every field but `activo`; the record then no longer exists. */
    method DeleteCustomer(customerId: string) returns (r: Outcome<CustomerError>)
      requires Valid()
      modifies this
      ensures Valid()
      ensures r.Pass? <==> old(GetCustomerById(customerId)).Success?
      ensures r.Fail? ==> r.error == CustomerNotFound(customerId) && customers == old(customers)
      ensures r.Pass? ==>
        customers == old(customers)[customerId := old(customers)[customerId].(activo := false, fechaActualizacion := None)]
      ensures !CustomerExists(customerId)
    {
      var found := GetCustomerById(customerId);
      if found.Failure? {
        return Fail(found.error);
      }
      var existing := found.value;
      var deleted := Customer(existing.customerId, existing.nombre, existing.apellidoPaterno,
                              existing.apellidoMaterno, existing.email, existing.direccionEnvio,
                              false, existing.fechaCreacion, None);
      Save(deleted);
      return Pass;
    }

    /** `validateMultipleCustomers`: one entry per requested id, holding whether that customer exists. */
    method ValidateMultipleCustomers(customerIds: seq<string>) returns (results: map<string, bool>)
      requires Valid()
      ensures results.Keys == set id | id in customerIds
      ensures forall id :: id in results ==> results[id] == CustomerExists(id)
    {
      results := map[];
      var i := 0;
      while i < |customerIds|
        invariant 0 <= i <= |customerIds|
        invariant results.Keys == set id | id in customerIds[..i]
        invariant forall id :: id in results ==> results[id] == CustomerExists(id)
      {
        var id := customerIds[i];
        results := results[id := CustomerExists(id)];
        assert customerIds[..i + 1] == customerIds[..i] + [id];
        i := i + 1;
      }
      assert customerIds[..i] == customerIds;
    }
  }
}
