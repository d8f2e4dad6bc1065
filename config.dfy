/** Tenant configuration (src/ikv_secrets/config.py): the YAML document under `~/.ikv`, of
    which the model keeps the `tenants` mapping, tenant name to `{url, default_record}`. */
module Config {
  import opened Wrappers
  import opened Dicts

  /** One tenant's entry; a member absent from the YAML mapping is `None`. */
  datatype TenantEntry = TenantEntry(url: Option<string>, defaultRecord: Option<string>)

  /** The loaded configuration; `tenants` is `None` when the document has no `tenants` key.
      A YAML mapping has each tenant name at most once. */
  datatype Document = Document(tenants: Option<PyDict<TenantEntry>>)

  /** What `config.yaml` holds: no file, an empty document, or a parsed mapping. */
  datatype ConfigFile = NoFile | EmptyFile | Parsed(doc: Document)

  /** `get_config`: a missing file reads as `{"tenants": {}}`, an empty one as `{}`. */
  function GetConfig(f: ConfigFile): (d: Document)
    ensures f.NoFile? ==> d == Document(Some([]))
    ensures f.EmptyFile? ==> d == Document(None)
    ensures f.Parsed? ==> d == f.doc
  {
    match f
    case NoFile => Document(Some([]))
    case EmptyFile => Document(None)
    case Parsed(doc) => doc
  }

  /** `config.get("tenants", {})`. */
  function TenantsOf(d: Document): PyDict<TenantEntry>
  {
    if d.tenants.Some? then d.tenants.value else []
  }

  /** `get_tenant_url(tenant)` on a loaded document. */
  function GetTenantUrl(d: Document, tenant: string): (r: Option<string>)
    ensures d.tenants.None? ==> r == None
    ensures Get(TenantsOf(d), tenant).None? ==> r == None
    ensures Get(TenantsOf(d), tenant).Some? ==> r == Get(TenantsOf(d), tenant).value.url
    ensures r.Some? ==> exists e :: Get(TenantsOf(d), tenant) == Some(e) && e.url == r
  {
    match Get(TenantsOf(d), tenant)
    case None => None
    case Some(e) => e.url
  }

  /** The entry `save_tenant_config` writes: the url, plus `default_record` only when a
      non-empty one is given. */
  function NewEntry(vaultUrl: string, defaultRecord: Option<string>): (e: TenantEntry)
    ensures e.url == Some(vaultUrl)
    ensures e.defaultRecord.Some? <==> Filled(defaultRecord)
    ensures e.defaultRecord.Some? ==> e.defaultRecord == defaultRecord
  {
    if Filled(defaultRecord) then TenantEntry(Some(vaultUrl), defaultRecord)
    else TenantEntry(Some(vaultUrl), None)
  }

  /** The document `save_tenant_config` writes back: `tenants` created when missing, the
      tenant's whole entry replaced. */
  function WithTenant(d: Document, tenant: string, vaultUrl: string, defaultRecord: Option<string>): (r: Document)
    ensures r.tenants.Some?
    ensures Get(TenantsOf(r), tenant) == Some(NewEntry(vaultUrl, defaultRecord))
    ensures forall other :: other != tenant ==> Get(TenantsOf(r), other) == Get(TenantsOf(d), other)
  {
    PutDistinct(TenantsOf(d), tenant, NewEntry(vaultUrl, defaultRecord));
    Document(Some(Put(TenantsOf(d), tenant, NewEntry(vaultUrl, defaultRecord))))
  }

  /** After saving a tenant's url, looking the tenant up gives that url. */
  lemma SaveThenGetUrl(d: Document, tenant: string, vaultUrl: string, defaultRecord: Option<string>)
    ensures GetTenantUrl(WithTenant(d, tenant, vaultUrl, defaultRecord), tenant) == Some(vaultUrl)
  {
  }

  /** Saving a tenant's entry leaves the url of every other tenant as it was. */
  lemma SaveKeepsOtherTenants(d: Document, tenant: string, vaultUrl: string, defaultRecord: Option<string>, other: string)
    requires other != tenant
    ensures GetTenantUrl(WithTenant(d, tenant, vaultUrl, defaultRecord), other) == GetTenantUrl(d, other)
  {
  }

  /** A re-save without a default record drops the one stored before. */
  lemma SaveDropsEarlierDefaultRecord(d: Document, tenant: string, vaultUrl: string)
    ensures Get(TenantsOf(WithTenant(d, tenant, vaultUrl, None)), tenant) == Some(TenantEntry(Some(vaultUrl), None))
  {
  }

  /** Saving the same values twice leaves the same document as saving them once. */
  lemma SaveIsIdempotent(d: Document, tenant: string, vaultUrl: string, defaultRecord: Option<string>)
    ensures WithTenant(WithTenant(d, tenant, vaultUrl, defaultRecord), tenant, vaultUrl, defaultRecord)
         == WithTenant(d, tenant, vaultUrl, defaultRecord)
  {
    PutTwice(TenantsOf(d), tenant, NewEntry(vaultUrl, defaultRecord));
  }

  /** A save keeps the order of the tenants already configured and appends a new one. */
  lemma SaveKeepsTenantOrder(d: Document, tenant: string, vaultUrl: string, defaultRecord: Option<string>)
    ensures Keys(TenantsOf(WithTenant(d, tenant, vaultUrl, defaultRecord)))
         == if tenant in Keys(TenantsOf(d)) then Keys(TenantsOf(d)) else Keys(TenantsOf(d)) + [tenant]
  {
    PutKeys(TenantsOf(d), tenant, NewEntry(vaultUrl, defaultRecord));
  }

  /** The configuration file, re-read on every call as in the source. */
  class ConfigStore {
    var file: ConfigFile

    constructor (initial: ConfigFile)
      ensures file == initial
    {
      file := initial;
    }

    /** `get_config()`. */
    function Current(): Document
      reads this
    {
      GetConfig(file)
    }

    /** `save_tenant_config(tenant, vault_url, default_record)`: load, create `tenants` when
        missing, replace the tenant's entry in place, write the document back. */
    method SaveTenantConfig(tenant: string, vaultUrl: string, defaultRecord: Option<string>)
      modifies this
      ensures file == Parsed(WithTenant(old(Current()), tenant, vaultUrl, defaultRecord))
      ensures GetTenantUrl(Current(), tenant) == Some(vaultUrl)
      ensures forall other :: other != tenant ==> GetTenantUrl(Current(), other) == GetTenantUrl(old(Current()), other)
    {
      var config := GetConfig(file);
      var tenants: PyDict<TenantEntry>;
      if config.tenants.None? {
        tenants := [];
      } else {
        tenants := config.tenants.value;
      }
      var entry := TenantEntry(Some(vaultUrl), None);
      if Filled(defaultRecord) {
        entry := entry.(defaultRecord := defaultRecord);
      }
      PutDistinct(tenants, tenant, entry);
      tenants := Put(tenants, tenant, entry);
      file := Parsed(Document(Some(tenants)));
    }
  }
}
