/** The Tasty Bytes setup statements, which snowflake_direct_connection.py,
    scripts/snowflake_password_connection.py and (with a leading comment
    line per step) scripts/automated_sql_generator.py each spell out.
    The statements are assembled from the object names they share. */
module TastyBytesSql {

  const Database := "tasty_bytes_sample_data"
  const RawPos := Database + ".raw_pos"
  const MenuTable := RawPos + ".menu"
  const BlobStage := Database + ".public.blob_stage"
  const MenuFiles := "@" + (BlobStage + "/raw_pos/menu/")
  const FromMenu := "FROM " + MenuTable

  /** One column definition line of the menu table. */
  function Column(name: string, sqlType: string): (line: string) {
    "    " + (name + (" " + sqlType))
  }

  const UseRole := "USE ROLE accountadmin;"
  const UseWarehouse := "USE WAREHOUSE compute_wh;"
  const CreateDatabase := "CREATE OR REPLACE DATABASE " + (Database + ";")
  const CreateSchema := "CREATE OR REPLACE SCHEMA " + (RawPos + ";")
  const CreateMenuTable :=
    "CREATE OR REPLACE TABLE " + (MenuTable + ("\n(\n"
    + (Column("menu_id", "NUMBER(19,0),\n")
    + (Column("menu_type_id", "NUMBER(38,0),\n")
    + (Column("menu_type", "VARCHAR(16777216),\n")
    + (Column("truck_brand_name", "VARCHAR(16777216),\n")
    + (Column("menu_item_id", "NUMBER(38,0),\n")
    + (Column("menu_item_name", "VARCHAR(16777216),\n")
    + (Column("item_category", "VARCHAR(16777216),\n")
    + (Column("item_subcategory", "VARCHAR(16777216),\n")
    + (Column("cost_of_goods_usd", "NUMBER(38,4),\n")
    + (Column("sale_price_usd", "NUMBER(38,4),\n")
    + (Column("menu_item_health_metrics_obj", "VARIANT\n")
    + ");")))))))))))))
  const SelectMenu := "SELECT * " + (FromMenu + ";")
  const CreateStage :=
    "CREATE OR REPLACE STAGE " + (BlobStage + ("\n"
    + ("url = 's3://sfquickstarts/tastybytes/'\n"
    + "file_format = (type = csv);")))
  const ListStage := "LIST " + (MenuFiles + ";")
  const CopyMenu := "COPY INTO " + (MenuTable + ("\n" + ("FROM " + (MenuFiles + ";"))))
  const CountRows := "SELECT COUNT(*) AS row_count " + (FromMenu + ";")
  const TopTen := "SELECT TOP 10 * " + (FromMenu + ";")
  const GroupByBrand :=
    "SELECT TRUCK_BRAND_NAME, COUNT(*)\n" + (FromMenu + ("\n"
    + ("GROUP BY 1\n"
    + "ORDER BY 2 DESC;")))
  const GroupByBrandAndType :=
    "SELECT\n" + ("    TRUCK_BRAND_NAME,\n" + ("    MENU_TYPE,\n" + ("    COUNT(*)\n"
    + (FromMenu + ("\n"
    + ("GROUP BY 1,2\n"
    + "ORDER BY 3 DESC;"))))))

  /** The nine setup statements, in order. */
  const SetupStatements: seq<string> := [UseRole, UseWarehouse, CreateDatabase, CreateSchema,
    CreateMenuTable, SelectMenu, CreateStage, ListStage, CopyMenu]

  /** The four verification queries, in order. */
  const VerificationQueries: seq<string> := [CountRows, TopTen, GroupByBrand, GroupByBrandAndType]
}
