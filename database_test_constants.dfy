/**
 * The expectation data every engine's schema test shares: the 32 domain
 * tables and, for each of them, the expected index names and column names.
 * The data is fixed when the test class is initialised and never changes.
 */
module DatabaseTestConstants {
  import opened Ascii

  /** An expectation model: the tables, and per table the expected indexes and columns. */
  datatype Expectation = Expectation(
    tables: seq<string>,
    indexes: map<string, seq<string>>,
    columns: map<string, seq<string>>)

  /** The expected domain tables, in the order the checks visit them. */
  const ExpectedTables: seq<string> := [
    // Customer Management
    "CUSTOMERS",
    "CUSTOMER_PREFERENCES",
    "CUSTOMER_ADDRESSES",
    "USER_SESSIONS",

    // Product Catalog
    "CATEGORIES",
    "BRANDS",
    "SUPPLIERS",
    "PRODUCTS",
    "PRODUCT_VARIANTS",
    "PRODUCT_ATTRIBUTES",
    "PRODUCT_IMAGES",
    "PRODUCT_REVIEWS",
    "PRODUCT_TAGS",
    "TAGS",

    // Inventory Management
    "INVENTORY_LOCATIONS",
    "INVENTORY_STOCK",
    "INVENTORY_LOG",
    "INVENTORY_ALERTS",

    // Order Management
    "ORDERS",
    "ORDER_ITEMS",
    "ORDER_ADDRESSES",
    "ORDER_PAYMENTS",
    "ORDER_SHIPMENTS",

    // Shopping & Wishlist
    "SHOPPING_CARTS",
    "SHOPPING_CART_ITEMS",
    "WISHLISTS",
    "WISHLIST_ITEMS",

    // Promotions
    "COUPONS",
    "COUPON_USAGE",

    // Audit & Security
    "AUDIT_LOG",
    "EMAIL_VERIFICATION_TOKENS",
    "PASSWORD_RESET_TOKENS"
  ]

  /** The expected index names of `AUDIT_LOG`. */
  const AuditLogIndexes: seq<string> := [
    "IDX_AUDIT_TABLE_RECORD", "IDX_AUDIT_TIMESTAMP", "IDX_AUDIT_USER"
  ]

  /** The expected index names of `CUSTOMERS`. */
  const CustomersIndexes: seq<string> := [
    "IDX_CUSTOMER_PHONE", "IDX_CUSTOMER_NAME",
    "IDX_CUSTOMER_EMAIL_VERIFIED", "IDX_CUSTOMER_CREATED", "IDX_CUSTOMER_LAST_LOGIN"
  ]

  /** The expected index names of `CUSTOMER_ADDRESSES`. */
  const CustomerAddressesIndexes: seq<string> := [
    "IDX_ADDRESS_CUSTOMER", "IDX_ADDRESS_TYPE", "IDX_ADDRESS_DEFAULT", "IDX_ADDRESS_COUNTRY", "IDX_ADDRESS_POSTAL", "IDX_ADDRESS_VALIDATED"
  ]

  /** The expected index names of `CUSTOMER_PREFERENCES`. */
  const CustomerPreferencesIndexes: seq<string> := [
    "IDX_PREFERENCE_CURRENCY", "IDX_PREFERENCE_LANGUAGE"
  ]

  /** The expected index names of `USER_SESSIONS`. */
  const UserSessionsIndexes: seq<string> := [
    "IDX_SESSION_CUSTOMER", "IDX_SESSION_EXPIRES", "IDX_SESSION_ACTIVE"
  ]

  /** The expected index names of `PASSWORD_RESET_TOKENS`. */
  const PasswordResetTokensIndexes: seq<string> := [
    "IDX_RESET_CUSTOMER", "IDX_RESET_EXPIRES"
  ]

  /** The expected index names of `EMAIL_VERIFICATION_TOKENS`. */
  const EmailVerificationTokensIndexes: seq<string> := [
    "IDX_VERIFY_CUSTOMER", "IDX_VERIFY_EMAIL"
  ]

  /** The expected index names of `CATEGORIES`. */
  const CategoriesIndexes: seq<string> := [
    "IDX_CATEGORY_PARENT", "IDX_CATEGORY_ACTIVE", "IDX_CATEGORY_FEATURED",
    "IDX_CATEGORY_LEVEL", "IDX_CATEGORY_SORT"
  ]

  /** The expected index names of `BRANDS`. */
  const BrandsIndexes: seq<string> := [
    "IDX_BRAND_ACTIVE", "IDX_BRAND_SORT"
  ]

  /** The expected index names of `PRODUCTS`. */
  const ProductsIndexes: seq<string> := [
    "IDX_PRODUCT_NAME", "IDX_PRODUCT_CATEGORY", "IDX_PRODUCT_BRAND", "IDX_PRODUCT_STATUS",
    "IDX_PRODUCT_FEATURED", "IDX_PRODUCT_IN_STOCK", "IDX_PRODUCT_PRICE_RANGE", "IDX_PRODUCT_RATING",
    "IDX_PRODUCT_CREATED", "IDX_PRODUCT_SKU", "IDX_PRODUCT_BARCODE"
  ]

  /** The expected index names of `PRODUCT_VARIANTS`. */
  const ProductVariantsIndexes: seq<string> := [
    "IDX_VARIANT_PRODUCT", "IDX_VARIANT_COLOR", "IDX_VARIANT_SIZE",
    "IDX_VARIANT_ACTIVE", "IDX_VARIANT_PRICE"
  ]

  /** The expected index names of `PRODUCT_ATTRIBUTES`. */
  const ProductAttributesIndexes: seq<string> := [
    "IDX_ATTRIBUTE_PRODUCT", "IDX_ATTRIBUTE_VARIANT", "IDX_ATTRIBUTE_KEY",
    "IDX_ATTRIBUTE_FILTERABLE", "IDX_ATTRIBUTE_SEARCHABLE", "IDX_ATTRIBUTE_DISPLAY"
  ]

  /** The expected index names of `PRODUCT_IMAGES`. */
  const ProductImagesIndexes: seq<string> := [
    "IDX_IMAGE_PRODUCT", "IDX_IMAGE_TYPE", "IDX_IMAGE_PRIMARY", "IDX_IMAGE_SORT"
  ]

  /** The expected index names of `PRODUCT_REVIEWS`. */
  const ProductReviewsIndexes: seq<string> := [
    "IDX_REVIEW_PRODUCT", "IDX_REVIEW_CUSTOMER", "IDX_REVIEW_RATING",
    "IDX_REVIEW_APPROVED", "IDX_REVIEW_FEATURED", "IDX_REVIEW_CREATED", "IDX_REVIEW_HELPFUL"
  ]

  /** The expected index names of `TAGS`. */
  const TagsIndexes: seq<string> := [
    "IDX_TAG_ACTIVE", "IDX_TAG_SORT"
  ]

  /** The expected index names of `PRODUCT_TAGS`. */
  const ProductTagsIndexes: seq<string> := [
    "IDX_PRODUCT_TAG_PRODUCT", "IDX_PRODUCT_TAG_TAG"
  ]

  /** The expected index names of `SHOPPING_CARTS`. */
  const ShoppingCartsIndexes: seq<string> := [
    "IDX_CART_CUSTOMER", "IDX_CART_SESSION", "IDX_CART_STATUS",
    "IDX_CART_LAST_ACTIVITY", "IDX_CART_EXPIRES", "IDX_CART_COUPON"
  ]

  /** The expected index names of `SHOPPING_CART_ITEMS`. */
  const ShoppingCartItemsIndexes: seq<string> := [
    "IDX_CART_ITEM_CART", "IDX_CART_ITEM_PRODUCT", "IDX_CART_ITEM_VARIANT",
    "IDX_CART_ITEM_AVAILABILITY", "IDX_CART_ITEM_ADDED"
  ]

  /** The expected index names of `WISHLISTS`. */
  const WishlistsIndexes: seq<string> := [
    "IDX_WISHLIST_CUSTOMER", "IDX_WISHLIST_DEFAULT", "IDX_WISHLIST_PUBLIC"
  ]

  /** The expected index names of `WISHLIST_ITEMS`. */
  const WishlistItemsIndexes: seq<string> := [
    "IDX_WISHLIST_ITEM_WISHLIST", "IDX_WISHLIST_ITEM_PRODUCT",
    "IDX_WISHLIST_ITEM_VARIANT", "IDX_WISHLIST_ITEM_PRIORITY", "IDX_WISHLIST_ITEM_ADDED"
  ]

  /** The expected index names of `ORDERS`. */
  const OrdersIndexes: seq<string> := [
    "IDX_ORDER_CUSTOMER", "IDX_ORDER_STATUS", "IDX_ORDER_CREATED",
    "IDX_ORDER_TOTAL", "IDX_ORDER_COUPON"
  ]

  /** The expected index names of `ORDER_ITEMS`. */
  const OrderItemsIndexes: seq<string> := [
    "IDX_ORDER_ITEM_ORDER", "IDX_ORDER_ITEM_PRODUCT", "IDX_ORDER_ITEM_VARIANT", "IDX_ORDER_ITEM_FULFILLMENT"
  ]

  /** The expected index names of `ORDER_ADDRESSES`. */
  const OrderAddressesIndexes: seq<string> := [
    "IDX_ORDER_ADDRESS_ORDER", "IDX_ORDER_ADDRESS_TYPE", "IDX_ORDER_ADDRESS_COUNTRY", "IDX_ORDER_ADDRESS_POSTAL"
  ]

  /** The expected index names of `ORDER_PAYMENTS`. */
  const OrderPaymentsIndexes: seq<string> := [
    "IDX_PAYMENT_ORDER", "IDX_PAYMENT_PROVIDER", "IDX_PAYMENT_STATUS",
    "IDX_PAYMENT_PROVIDER_PAYMENT_ID", "IDX_PAYMENT_CREATED"
  ]

  /** The expected index names of `ORDER_SHIPMENTS`. */
  const OrderShipmentsIndexes: seq<string> := [
    "IDX_SHIPPING_ORDER", "IDX_SHIPPING_CARRIER", "IDX_SHIPPING_STATUS",
    "IDX_SHIPPING_TRACKING", "IDX_SHIPPING_CREATED", "IDX_SHIPPING_ESTIMATED_DELIVERY"
  ]

  /** The expected index names of `COUPONS`. */
  const CouponsIndexes: seq<string> := [
    "IDX_COUPON_ACTIVE", "IDX_COUPON_EXPIRES", "IDX_COUPON_STARTS", "IDX_COUPON_TYPE"
  ]

  /** The expected index names of `COUPON_USAGE`. */
  const CouponUsageIndexes: seq<string> := [
    "IDX_COUPON_USAGE_COUPON", "IDX_COUPON_USAGE_CUSTOMER",
    "IDX_COUPON_USAGE_ORDER", "IDX_COUPON_USAGE_USED_AT"
  ]

  /** The expected index names of `SUPPLIERS`. */
  const SuppliersIndexes: seq<string> := [
    "IDX_SUPPLIER_NAME", "IDX_SUPPLIER_STATUS", "IDX_SUPPLIER_COUNTRY",
    "IDX_SUPPLIER_RATING"
  ]

  /** The expected index names of `INVENTORY_LOCATIONS`. */
  const InventoryLocationsIndexes: seq<string> := [
    "IDX_LOCATION_TYPE", "IDX_LOCATION_ACTIVE", "IDX_LOCATION_COUNTRY"
  ]

  /** The expected index names of `INVENTORY_STOCK`. */
  const InventoryStockIndexes: seq<string> := [
    "IDX_STOCK_VARIANT", "IDX_STOCK_SUPPLIER", "IDX_STOCK_LOCATION",
    "IDX_STOCK_SUPPLIED_DATE", "IDX_STOCK_STATUS", "IDX_STOCK_AVAILABLE"
  ]

  /** The expected index names of `INVENTORY_LOG`. */
  const InventoryLogIndexes: seq<string> := [
    "IDX_LOG_ENTITY_TYPE", "IDX_LOG_PRODUCT", "IDX_LOG_VARIANT", "IDX_LOG_SUPPLIER",
    "IDX_LOG_LOCATION", "IDX_LOG_OPERATION", "IDX_LOG_CREATED", "IDX_LOG_REFERENCE", "IDX_LOG_ADMIN_USER"
  ]

  /** The expected index names of `INVENTORY_ALERTS`. */
  const InventoryAlertsIndexes: seq<string> := [
    "IDX_ALERT_TYPE", "IDX_ALERT_SEVERITY", "IDX_ALERT_STATUS", "IDX_ALERT_PRODUCT",
    "IDX_ALERT_VARIANT", "IDX_ALERT_SUPPLIER", "IDX_ALERT_LOCATION", "IDX_ALERT_CREATED",
    "IDX_ALERT_ACKNOWLEDGED", "IDX_ALERT_RESOLVED"
  ]

  /**
   * Expected indexes per table: only the names of explicit CREATE INDEX
   * statements, never indexes an engine creates for constraints.
   */
  const ExpectedTableIndexes: map<string, seq<string>> := map[
    "AUDIT_LOG" := AuditLogIndexes,
    "CUSTOMERS" := CustomersIndexes,
    "CUSTOMER_ADDRESSES" := CustomerAddressesIndexes,
    "CUSTOMER_PREFERENCES" := CustomerPreferencesIndexes,
    "USER_SESSIONS" := UserSessionsIndexes,
    "PASSWORD_RESET_TOKENS" := PasswordResetTokensIndexes,
    "EMAIL_VERIFICATION_TOKENS" := EmailVerificationTokensIndexes,
    "CATEGORIES" := CategoriesIndexes,
    "BRANDS" := BrandsIndexes,
    "PRODUCTS" := ProductsIndexes,
    "PRODUCT_VARIANTS" := ProductVariantsIndexes,
    "PRODUCT_ATTRIBUTES" := ProductAttributesIndexes,
    "PRODUCT_IMAGES" := ProductImagesIndexes,
    "PRODUCT_REVIEWS" := ProductReviewsIndexes,
    "TAGS" := TagsIndexes,
    "PRODUCT_TAGS" := ProductTagsIndexes,
    "SHOPPING_CARTS" := ShoppingCartsIndexes,
    "SHOPPING_CART_ITEMS" := ShoppingCartItemsIndexes,
    "WISHLISTS" := WishlistsIndexes,
    "WISHLIST_ITEMS" := WishlistItemsIndexes,
    "ORDERS" := OrdersIndexes,
    "ORDER_ITEMS" := OrderItemsIndexes,
    "ORDER_ADDRESSES" := OrderAddressesIndexes,
    "ORDER_PAYMENTS" := OrderPaymentsIndexes,
    "ORDER_SHIPMENTS" := OrderShipmentsIndexes,
    "COUPONS" := CouponsIndexes,
    "COUPON_USAGE" := CouponUsageIndexes,
    "SUPPLIERS" := SuppliersIndexes,
    "INVENTORY_LOCATIONS" := InventoryLocationsIndexes,
    "INVENTORY_STOCK" := InventoryStockIndexes,
    "INVENTORY_LOG" := InventoryLogIndexes,
    "INVENTORY_ALERTS" := InventoryAlertsIndexes
  ]

  /** The expected column names of `CUSTOMERS`. */
  const CustomersColumns: seq<string> := [
    "ID", "EMAIL", "PASSWORD_HASH", "FIRST_NAME", "LAST_NAME", "PHONE",
    "DATE_OF_BIRTH", "EMAIL_VERIFIED", "EMAIL_VERIFIED_AT",
    "GOOGLE_ID", "FACEBOOK_ID", "LINKEDIN_ID",
    "CREATED_AT", "UPDATED_AT", "LAST_LOGIN_AT"
  ]

  /** The expected column names of `CUSTOMER_PREFERENCES`. */
  const CustomerPreferencesColumns: seq<string> := [
    "ID", "CUSTOMER_ID",
    "EMAIL_NOTIFICATIONS", "SMS_NOTIFICATIONS", "PUSH_NOTIFICATIONS", "MARKETING_EMAILS",
    "CURRENCY", "LANGUAGE", "TIMEZONE",
    "THEME", "ITEMS_PER_PAGE",
    "CREATED_AT", "UPDATED_AT"
  ]

  /** The expected column names of `CUSTOMER_ADDRESSES`. */
  const CustomerAddressesColumns: seq<string> := [
    "ID", "CUSTOMER_ID", "TYPE",
    "FIRST_NAME", "LAST_NAME", "FULL_NAME", "COMPANY",
    "ADDRESS_LINE1", "ADDRESS_LINE2", "CITY", "STATE", "POSTAL_CODE", "COUNTRY", "PHONE",
    "IS_DEFAULT", "IS_VALIDATED",
    "LONGITUDE", "LATITUDE",
    "CREATED_AT", "UPDATED_AT"
  ]

  /** The expected column names of `USER_SESSIONS`. */
  const UserSessionsColumns: seq<string> := [
    "ID", "CUSTOMER_ID", "REFRESH_TOKEN", "ACCESS_TOKEN_HASH",
    "EXPIRES_AT", "CREATED_AT", "LAST_ACCESSED_AT",
    "IP_ADDRESS", "USER_AGENT", "IS_ACTIVE"
  ]

  /** The expected column names of `CATEGORIES`. */
  const CategoriesColumns: seq<string> := [
    "ID", "NAME", "SLUG", "DESCRIPTION", "PARENT_ID",
    "SEO_TITLE", "SEO_DESCRIPTION",
    "IMAGE_URL", "IMAGE_ALT_TEXT", "SORT_ORDER", "IS_ACTIVE", "IS_FEATURED",
    "PATH", "LEVEL_DEPTH",
    "CREATED_AT", "UPDATED_AT"
  ]

  /** The expected column names of `BRANDS`. */
  const BrandsColumns: seq<string> := [
    "ID", "NAME", "SLUG", "DESCRIPTION",
    "LOGO_URL", "LOGO_ALT_TEXT", "WEBSITE_URL",
    "SEO_TITLE", "SEO_DESCRIPTION",
    "IS_ACTIVE", "SORT_ORDER",
    "CREATED_AT", "UPDATED_AT"
  ]

  /** The expected column names of `SUPPLIERS`. */
  const SuppliersColumns: seq<string> := [
    "ID", "NAME", "SLUG", "DESCRIPTION",
    "CONTACT_PERSON", "EMAIL", "PHONE", "WEBSITE_URL",
    "ADDRESS_LINE1", "ADDRESS_LINE2", "CITY", "STATE", "POSTAL_CODE", "COUNTRY",
    "TAX_ID", "PAYMENT_TERMS", "LEAD_TIME_DAYS", "MINIMUM_ORDER_AMOUNT", "CURRENCY",
    "STATUS", "RATING",
    "CREATED_AT", "UPDATED_AT"
  ]

  /** The expected column names of `PRODUCTS`. */
  const ProductsColumns: seq<string> := [
    "ID", "NAME", "SLUG", "DESCRIPTION", "SHORT_DESCRIPTION",
    "CATEGORY_ID", "BRAND_ID",
    "SKU", "BARCODE",
    "WEIGHT_GRAMS", "LENGTH_CM", "WIDTH_CM", "HEIGHT_CM", "DIMENSION_UNIT",
    "STATUS", "IS_FEATURED",
    "SEO_TITLE", "SEO_DESCRIPTION",
    "MIN_PRICE", "MAX_PRICE", "CURRENCY", "AVG_RATING", "REVIEW_COUNT", "TOTAL_STOCK", "IS_IN_STOCK",
    "CREATED_AT", "UPDATED_AT"
  ]

  /** The expected column names of `PRODUCT_VARIANTS`. */
  const ProductVariantsColumns: seq<string> := [
    "ID", "PRODUCT_ID", "NAME", "SKU",
    "PRICE", "COMPARE_AT_PRICE", "COST_PRICE", "CURRENCY",
    "COLOR_NAME", "SIZE_TYPE", "MATERIAL",
    "WEIGHT_GRAMS", "LENGTH_CM", "WIDTH_CM", "HEIGHT_CM",
    "IS_ACTIVE",
    "CREATED_AT", "UPDATED_AT"
  ]

  /** The expected column names of `PRODUCT_ATTRIBUTES`. */
  const ProductAttributesColumns: seq<string> := [
    "ID", "PRODUCT_ID", "VARIANT_ID",
    "ATTRIBUTE_KEY", "ATTRIBUTE_VALUE", "ATTRIBUTE_TYPE",
    "IS_FILTERABLE", "IS_SEARCHABLE", "DISPLAY_ORDER",
    "CREATED_AT", "UPDATED_AT"
  ]

  /** The expected column names of `PRODUCT_IMAGES`. */
  const ProductImagesColumns: seq<string> := [
    "ID", "PRODUCT_ID", "URL", "ALT_TEXT", "TITLE",
    "IMAGE_TYPE", "WIDTH_PX", "HEIGHT_PX", "FILE_SIZE_BYTES", "MIME_TYPE",
    "IS_PRIMARY", "SORT_ORDER",
    "CREATED_AT", "UPDATED_AT"
  ]

  /** The expected column names of `PRODUCT_REVIEWS`. */
  const ProductReviewsColumns: seq<string> := [
    "ID", "PRODUCT_ID", "CUSTOMER_ID", "ORDER_ID",
    "RATING", "TITLE", "REVIEW_TEXT",
    "IS_VERIFIED_PURCHASE", "IS_APPROVED", "IS_FEATURED",
    "HELPFUL_COUNT", "TOTAL_VOTES",
    "CREATED_AT", "UPDATED_AT", "APPROVED_AT"
  ]

  /** The expected column names of `PRODUCT_TAGS`. */
  const ProductTagsColumns: seq<string> := [
    "PRODUCT_ID", "TAG_ID"
  ]

  /** The expected column names of `TAGS`. */
  const TagsColumns: seq<string> := [
    "ID", "NAME", "SLUG", "DESCRIPTION", "COLOR", "SORT_ORDER", "IS_ACTIVE", "CREATED_AT"
  ]

  /** The expected column names of `INVENTORY_LOCATIONS`. */
  const InventoryLocationsColumns: seq<string> := [
    "ID", "NAME", "CODE", "TYPE", "DESCRIPTION",
    "ADDRESS_LINE1", "ADDRESS_LINE2", "CITY", "STATE", "POSTAL_CODE", "COUNTRY",
    "IS_ACTIVE", "CAPACITY_SQM", "TEMPERATURE_CONTROLLED",
    "CONTACT_PERSON", "CONTACT_PHONE", "CONTACT_EMAIL",
    "CREATED_AT", "UPDATED_AT"
  ]

  /** The expected column names of `INVENTORY_STOCK`. */
  const InventoryStockColumns: seq<string> := [
    "VARIANT_ID", "SUPPLIER_ID", "LOCATION_ID", "SUPPLIED_DATE",
    "COST_PRICE", "SUPPLIER_SKU", "BATCH_REFERENCE",
    "QUANTITY_ON_HAND", "QUANTITY_RESERVED", "QUANTITY_AVAILABLE",
    "LOW_STOCK_THRESHOLD", "REORDER_QUANTITY",
    "STATUS", "EXPIRY_DATE", "LAST_INVENTORY_COUNT", "LAST_UPDATED"
  ]

  /** The expected column names of `INVENTORY_LOG`. */
  const InventoryLogColumns: seq<string> := [
    "ID",
    "ENTITY_TYPE", "OPERATION_TYPE",
    "PRODUCT_ID", "VARIANT_ID", "SUPPLIER_ID", "LOCATION_ID",
    "OLD_VALUES", "NEW_VALUES",
    "QUANTITY_CHANGE", "QUANTITY_BEFORE", "QUANTITY_AFTER",
    "REASON", "REFERENCE_TYPE", "REFERENCE_ID",
    "ADMIN_USER_ID", "ADMIN_USERNAME",
    "IP_ADDRESS", "USER_AGENT",
    "CREATED_AT"
  ]

  /** The expected column names of `INVENTORY_ALERTS`. */
  const InventoryAlertsColumns: seq<string> := [
    "ID",
    "ALERT_TYPE", "SEVERITY",
    "PRODUCT_ID", "VARIANT_ID", "SUPPLIER_ID", "LOCATION_ID",
    "TITLE", "MESSAGE", "SUGGESTED_ACTION",
    "STATUS", "ACKNOWLEDGED_BY", "ACKNOWLEDGED_AT", "RESOLVED_BY", "RESOLVED_AT",
    "CURRENT_VALUE", "THRESHOLD_VALUE", "UNIT",
    "AUTO_RESOLVE_HOURS", "AUTO_RESOLVE_ENABLED",
    "CREATED_AT", "UPDATED_AT"
  ]

  /** The expected column names of `ORDERS`. */
  const OrdersColumns: seq<string> := [
    "ID", "ORDER_NUMBER", "CUSTOMER_ID",
    "STATUS",
    "SUBTOTAL", "DISCOUNT_TOTAL", "TAX_TOTAL", "SHIPPING_COST", "TOTAL_AMOUNT", "CURRENCY",
    "COUPON_CODE", "COUPON_DISCOUNT_AMOUNT", "COUPON_DISCOUNT_TYPE",
    "CUSTOMER_NOTES", "SPECIAL_INSTRUCTIONS",
    "REQUIRES_SHIPPING", "WEIGHT_TOTAL",
    "CREATED_AT", "UPDATED_AT", "CONFIRMED_AT", "SHIPPED_AT", "DELIVERED_AT", "CANCELLED_AT"
  ]

  /** The expected column names of `ORDER_ITEMS`. */
  const OrderItemsColumns: seq<string> := [
    "ID", "ORDER_ID", "PRODUCT_ID", "VARIANT_ID",
    "QUANTITY", "UNIT_PRICE", "LINE_TOTAL",
    "PRODUCT_NAME", "PRODUCT_SLUG", "VARIANT_NAME", "VARIANT_SKU",
    "COLOR_NAME", "SIZE_NAME", "MATERIAL", "WEIGHT_GRAMS",
    "COST_PRICE", "PROFIT_MARGIN",
    "FULFILLMENT_STATUS", "SHIPPED_QUANTITY"
  ]

  /** The expected column names of `ORDER_ADDRESSES`. */
  const OrderAddressesColumns: seq<string> := [
    "ID", "ORDER_ID", "ADDRESS_TYPE",
    "FIRST_NAME", "LAST_NAME", "FULL_NAME", "COMPANY",
    "ADDRESS_LINE1", "ADDRESS_LINE2", "CITY", "STATE", "POSTAL_CODE", "COUNTRY", "PHONE",
    "IS_VALIDATED", "VALIDATION_SCORE"
  ]

  /** The expected column names of `ORDER_PAYMENTS`. */
  const OrderPaymentsColumns: seq<string> := [
    "ID", "ORDER_ID",
    "PAYMENT_PROVIDER", "PAYMENT_METHOD",
    "AMOUNT", "CURRENCY",
    "STATUS",
    "PROVIDER_PAYMENT_ID", "PROVIDER_CHARGE_ID", "PROVIDER_TRANSACTION_ID", "PROVIDER_METADATA",
    "AUTHORIZED_AT", "CAPTURED_AT", "FAILED_AT", "REFUNDED_AT",
    "FAILURE_CODE", "FAILURE_MESSAGE",
    "CREATED_AT", "UPDATED_AT"
  ]

  /** The expected column names of `ORDER_SHIPMENTS`. */
  const OrderShipmentsColumns: seq<string> := [
    "ID", "ORDER_ID",
    "CARRIER", "SERVICE_LEVEL",
    "TRACKING_NUMBER", "TRACKING_URL",
    "STATUS",
    "WEIGHT_GRAMS", "DIMENSIONS_LENGTH", "DIMENSIONS_WIDTH", "DIMENSIONS_HEIGHT", "DIMENSION_UNIT",
    "SHIPPING_COST", "INSURANCE_COST", "HANDLING_FEE",
    "PROVIDER_SHIPMENT_ID", "PROVIDER_METADATA",
    "ESTIMATED_DELIVERY_DATE", "ACTUAL_DELIVERY_DATE",
    "DELIVERED_TO", "DELIVERY_LOCATION", "DELIVERY_SIGNATURE_REQUIRED", "DELIVERY_SIGNATURE_OBTAINED",
    "CREATED_AT", "UPDATED_AT", "SHIPPED_AT", "DELIVERED_AT"
  ]

  /** The expected column names of `SHOPPING_CARTS`. */
  const ShoppingCartsColumns: seq<string> := [
    "ID", "CUSTOMER_ID", "SESSION_ID",
    "STATUS", "CURRENCY",
    "COUPON_CODE", "COUPON_DISCOUNT_AMOUNT", "COUPON_DISCOUNT_TYPE",
    "ITEM_COUNT", "SUBTOTAL", "DISCOUNT_TOTAL", "TAX_ESTIMATE", "SHIPPING_ESTIMATE", "TOTAL_ESTIMATE",
    "TAX_RATE", "SHIPPING_ADDRESS_ID", "BILLING_ADDRESS_ID",
    "CREATED_AT", "UPDATED_AT", "LAST_ACTIVITY_AT", "EXPIRES_AT"
  ]

  /** The expected column names of `SHOPPING_CART_ITEMS`. */
  const ShoppingCartItemsColumns: seq<string> := [
    "ID", "CART_ID", "PRODUCT_ID", "VARIANT_ID",
    "QUANTITY", "UNIT_PRICE", "LINE_TOTAL",
    "PRODUCT_NAME", "PRODUCT_SLUG", "VARIANT_NAME", "VARIANT_SKU",
    "COLOR_NAME", "SIZE_NAME", "MATERIAL", "PRIMARY_IMAGE_URL",
    "DISCOUNT_AMOUNT", "DISCOUNT_TYPE", "DISCOUNT_REASON",
    "AVAILABILITY_CHECKED_AT", "IS_AVAILABLE", "AVAILABILITY_MESSAGE",
    "ADDED_AT", "UPDATED_AT"
  ]

  /** The expected column names of `WISHLISTS`. */
  const WishlistsColumns: seq<string> := [
    "ID", "CUSTOMER_ID", "NAME", "DESCRIPTION",
    "IS_PUBLIC", "IS_DEFAULT",
    "SHARE_TOKEN",
    "CREATED_AT", "UPDATED_AT"
  ]

  /** The expected column names of `WISHLIST_ITEMS`. */
  const WishlistItemsColumns: seq<string> := [
    "ID", "WISHLIST_ID", "PRODUCT_ID", "VARIANT_ID",
    "QUANTITY", "PRIORITY",
    "PRODUCT_NAME", "PRODUCT_SLUG", "VARIANT_NAME", "VARIANT_SKU", "SAVED_PRICE",
    "NOTES",
    "ADDED_AT", "UPDATED_AT"
  ]

  /** The expected column names of `COUPONS`. */
  const CouponsColumns: seq<string> := [
    "ID", "CODE", "NAME", "DESCRIPTION",
    "DISCOUNT_TYPE", "DISCOUNT_VALUE",
    "USAGE_LIMIT", "USAGE_LIMIT_PER_CUSTOMER", "USAGE_COUNT",
    "MINIMUM_ORDER_AMOUNT", "MAXIMUM_DISCOUNT_AMOUNT",
    "STARTS_AT", "EXPIRES_AT",
    "IS_ACTIVE",
    "CREATED_AT", "UPDATED_AT"
  ]

  /** The expected column names of `COUPON_USAGE`. */
  const CouponUsageColumns: seq<string> := [
    "ID", "COUPON_ID", "CUSTOMER_ID", "ORDER_ID",
    "DISCOUNT_AMOUNT", "ORDER_AMOUNT",
    "USED_AT"
  ]

  /** The expected column names of `AUDIT_LOG`. */
  const AuditLogColumns: seq<string> := [
    "ID", "TABLE_NAME", "OPERATION_TYPE", "RECORD_ID",
    "OLD_VALUES", "NEW_VALUES",
    "CHANGED_BY", "CHANGED_AT",
    "IP_ADDRESS", "USER_AGENT"
  ]

  /** The expected column names of `EMAIL_VERIFICATION_TOKENS`. */
  const EmailVerificationTokensColumns: seq<string> := [
    "ID", "CUSTOMER_ID", "TOKEN", "EMAIL",
    "EXPIRES_AT", "VERIFIED_AT", "CREATED_AT"
  ]

  /** The expected column names of `PASSWORD_RESET_TOKENS`. */
  const PasswordResetTokensColumns: seq<string> := [
    "ID", "CUSTOMER_ID", "TOKEN",
    "EXPIRES_AT", "USED_AT", "CREATED_AT",
    "IP_ADDRESS"
  ]

  /** Expected columns per table. */
  const ExpectedTableColumns: map<string, seq<string>> := map[
    "CUSTOMERS" := CustomersColumns,
    "CUSTOMER_PREFERENCES" := CustomerPreferencesColumns,
    "CUSTOMER_ADDRESSES" := CustomerAddressesColumns,
    "USER_SESSIONS" := UserSessionsColumns,
    "CATEGORIES" := CategoriesColumns,
    "BRANDS" := BrandsColumns,
    "SUPPLIERS" := SuppliersColumns,
    "PRODUCTS" := ProductsColumns,
    "PRODUCT_VARIANTS" := ProductVariantsColumns,
    "PRODUCT_ATTRIBUTES" := ProductAttributesColumns,
    "PRODUCT_IMAGES" := ProductImagesColumns,
    "PRODUCT_REVIEWS" := ProductReviewsColumns,
    "PRODUCT_TAGS" := ProductTagsColumns,
    "TAGS" := TagsColumns,
    "INVENTORY_LOCATIONS" := InventoryLocationsColumns,
    "INVENTORY_STOCK" := InventoryStockColumns,
    "INVENTORY_LOG" := InventoryLogColumns,
    "INVENTORY_ALERTS" := InventoryAlertsColumns,
    "ORDERS" := OrdersColumns,
    "ORDER_ITEMS" := OrderItemsColumns,
    "ORDER_ADDRESSES" := OrderAddressesColumns,
    "ORDER_PAYMENTS" := OrderPaymentsColumns,
    "ORDER_SHIPMENTS" := OrderShipmentsColumns,
    "SHOPPING_CARTS" := ShoppingCartsColumns,
    "SHOPPING_CART_ITEMS" := ShoppingCartItemsColumns,
    "WISHLISTS" := WishlistsColumns,
    "WISHLIST_ITEMS" := WishlistItemsColumns,
    "COUPONS" := CouponsColumns,
    "COUPON_USAGE" := CouponUsageColumns,
    "AUDIT_LOG" := AuditLogColumns,
    "EMAIL_VERIFICATION_TOKENS" := EmailVerificationTokensColumns,
    "PASSWORD_RESET_TOKENS" := PasswordResetTokensColumns
  ]

  /** The expectation the schema tests run against. */
  const Shipped: Expectation := Expectation(ExpectedTables, ExpectedTableIndexes, ExpectedTableColumns)

  // Distinctness is proved in two halves to keep each proof small.
  lemma ExpectedTablesDistinctBefore23()
    ensures forall i, j :: 0 <= i < j < 23 ==> ExpectedTables[i] != ExpectedTables[j]
  {
  }

  lemma ExpectedTablesDistinctFrom23()
    ensures forall i, j :: 0 <= i < j && 23 <= j < 32 ==> ExpectedTables[i] != ExpectedTables[j]
  {
  }

  /** The tables are 32 pairwise distinct names. */
  lemma ExpectedTablesDistinct()
    ensures |ExpectedTables| == 32
    ensures forall i, j :: 0 <= i < j < |ExpectedTables| ==> ExpectedTables[i] != ExpectedTables[j]
  {
    ExpectedTablesDistinctBefore23();
    ExpectedTablesDistinctFrom23();
  }

  /** A table has an index list exactly when it is in the table list. */
  lemma IndexExpectationsCoverTheTables()
    ensures forall t :: t in ExpectedTables <==> t in ExpectedTableIndexes
  {
  }

  /** A table has a column list exactly when it is in the table list. */
  lemma ColumnExpectationsCoverTheTables()
    ensures forall t :: t in ExpectedTables <==> t in ExpectedTableColumns
  {
  }

  /** The tables at positions `lo` to `hi` have no lower-case letter. */
  ghost predicate TablesUpperIn(lo: int, hi: int)
  {
    forall i :: lo <= i < hi && 0 <= i < |ExpectedTables| ==> NoLower(ExpectedTables[i])
  }

  // Proved four tables at a time to keep each proof small.
  lemma TableNamesUpperPart1() ensures TablesUpperIn(0, 4) {}
  lemma TableNamesUpperPart2() ensures TablesUpperIn(4, 8) {}
  lemma TableNamesUpperPart3() ensures TablesUpperIn(8, 12) {}
  lemma TableNamesUpperPart4() ensures TablesUpperIn(12, 16) {}
  lemma TableNamesUpperPart5() ensures TablesUpperIn(16, 20) {}
  lemma TableNamesUpperPart6() ensures TablesUpperIn(20, 24) {}
  lemma TableNamesUpperPart7() ensures TablesUpperIn(24, 28) {}
  lemma TableNamesUpperPart8() ensures TablesUpperIn(28, 32) {}

  /** Every expected table name is already in upper case, so upper-casing leaves it unchanged. */
  lemma TableNamesUpper()
    ensures forall t :: t in ExpectedTables ==> NoLower(t) && Upper(t) == t
  {
    TableNamesUpperPart1();
    TableNamesUpperPart2();
    TableNamesUpperPart3();
    TableNamesUpperPart4();
    TableNamesUpperPart5();
    TableNamesUpperPart6();
    TableNamesUpperPart7();
    TableNamesUpperPart8();
    forall t | t in ExpectedTables
      ensures NoLower(t)
    {
      var i :| 0 <= i < |ExpectedTables| && ExpectedTables[i] == t;
    }
  }

  // ---------------------------------------------------------------------
  // Properties of the index and column lists
  // ---------------------------------------------------------------------

  /** `AUTO_` occurs in `s` at position `i`, spelled out character by character. */
  predicate AutoAt(s: string, i: int)
  {
    0 <= i && i + 5 <= |s| && s[i] == 'A' && s[i + 1] == 'U' && s[i + 2] == 'T' && s[i + 3] == 'O' && s[i + 4] == '_'
  }

  /** An occurrence of `AUTO_` is an occurrence of its five characters. */
  lemma ContainsAutoChars(s: string)
    requires Contains(s, "AUTO_")
    ensures exists i :: AutoAt(s, i)
  {
    var i :| 0 <= i <= |s| - 5 && OccursAt(s, "AUTO_", i);
    var w := s[i..i + 5];
    assert w == "AUTO_";
    assert w[0] == 'A' && w[1] == 'U' && w[2] == 'T' && w[3] == 'O' && w[4] == '_';
    assert AutoAt(s, i);
  }

  // Each list is checked on its own, and looked up in its map on its own,
  // to keep every proof small.

  lemma CustomersIndexesAt() ensures ExpectedTableIndexes[ExpectedTables[0]] == CustomersIndexes {}
  lemma CustomersIndexesPrefixed() ensures forall n :: n in CustomersIndexes ==> StartsWith(n, "IDX_") {}
  lemma CustomersIndexesUpper() ensures forall n :: n in CustomersIndexes ==> NoLower(n) {}
  lemma CustomersIndexesWithoutAuto() ensures forall n, k :: n in CustomersIndexes ==> !AutoAt(n, k) {}
  lemma CustomersIndexesDistinct() ensures forall j, k :: 0 <= j < k < |CustomersIndexes| ==> CustomersIndexes[j] != CustomersIndexes[k] {}
  lemma CustomersColumnsAt() ensures ExpectedTableColumns[ExpectedTables[0]] == CustomersColumns {}
  lemma CustomersColumnsDistinct() ensures forall j, k :: 0 <= j < k < |CustomersColumns| ==> CustomersColumns[j] != CustomersColumns[k] {}

  lemma CustomerPreferencesIndexesAt() ensures ExpectedTableIndexes[ExpectedTables[1]] == CustomerPreferencesIndexes {}
  lemma CustomerPreferencesIndexesPrefixed() ensures forall n :: n in CustomerPreferencesIndexes ==> StartsWith(n, "IDX_") {}
  lemma CustomerPreferencesIndexesUpper() ensures forall n :: n in CustomerPreferencesIndexes ==> NoLower(n) {}
  lemma CustomerPreferencesIndexesWithoutAuto() ensures forall n, k :: n in CustomerPreferencesIndexes ==> !AutoAt(n, k) {}
  lemma CustomerPreferencesIndexesDistinct() ensures forall j, k :: 0 <= j < k < |CustomerPreferencesIndexes| ==> CustomerPreferencesIndexes[j] != CustomerPreferencesIndexes[k] {}
  lemma CustomerPreferencesColumnsAt() ensures ExpectedTableColumns[ExpectedTables[1]] == CustomerPreferencesColumns {}
  lemma CustomerPreferencesColumnsDistinct() ensures forall j, k :: 0 <= j < k < |CustomerPreferencesColumns| ==> CustomerPreferencesColumns[j] != CustomerPreferencesColumns[k] {}

  lemma CustomerAddressesIndexesAt() ensures ExpectedTableIndexes[ExpectedTables[2]] == CustomerAddressesIndexes {}
  lemma CustomerAddressesIndexesPrefixed() ensures forall n :: n in CustomerAddressesIndexes ==> StartsWith(n, "IDX_") {}
  lemma CustomerAddressesIndexesUpper() ensures forall n :: n in CustomerAddressesIndexes ==> NoLower(n) {}
  lemma CustomerAddressesIndexesWithoutAuto() ensures forall n, k :: n in CustomerAddressesIndexes ==> !AutoAt(n, k) {}
  lemma CustomerAddressesIndexesDistinct() ensures forall j, k :: 0 <= j < k < |CustomerAddressesIndexes| ==> CustomerAddressesIndexes[j] != CustomerAddressesIndexes[k] {}
  lemma CustomerAddressesColumnsAt() ensures ExpectedTableColumns[ExpectedTables[2]] == CustomerAddressesColumns {}
  lemma CustomerAddressesColumnsDistinct() ensures forall j, k :: 0 <= j < k < |CustomerAddressesColumns| ==> CustomerAddressesColumns[j] != CustomerAddressesColumns[k] {}

  lemma UserSessionsIndexesAt() ensures ExpectedTableIndexes[ExpectedTables[3]] == UserSessionsIndexes {}
  lemma UserSessionsIndexesPrefixed() ensures forall n :: n in UserSessionsIndexes ==> StartsWith(n, "IDX_") {}
  lemma UserSessionsIndexesUpper() ensures forall n :: n in UserSessionsIndexes ==> NoLower(n) {}
  lemma UserSessionsIndexesWithoutAuto() ensures forall n, k :: n in UserSessionsIndexes ==> !AutoAt(n, k) {}
  lemma UserSessionsIndexesDistinct() ensures forall j, k :: 0 <= j < k < |UserSessionsIndexes| ==> UserSessionsIndexes[j] != UserSessionsIndexes[k] {}
  lemma UserSessionsColumnsAt() ensures ExpectedTableColumns[ExpectedTables[3]] == UserSessionsColumns {}
  lemma UserSessionsColumnsDistinct() ensures forall j, k :: 0 <= j < k < |UserSessionsColumns| ==> UserSessionsColumns[j] != UserSessionsColumns[k] {}

  lemma CategoriesIndexesAt() ensures ExpectedTableIndexes[ExpectedTables[4]] == CategoriesIndexes {}
  lemma CategoriesIndexesPrefixed() ensures forall n :: n in CategoriesIndexes ==> StartsWith(n, "IDX_") {}
  lemma CategoriesIndexesUpper() ensures forall n :: n in CategoriesIndexes ==> NoLower(n) {}
  lemma CategoriesIndexesWithoutAuto() ensures forall n, k :: n in CategoriesIndexes ==> !AutoAt(n, k) {}
  lemma CategoriesIndexesDistinct() ensures forall j, k :: 0 <= j < k < |CategoriesIndexes| ==> CategoriesIndexes[j] != CategoriesIndexes[k] {}
  lemma CategoriesColumnsAt() ensures ExpectedTableColumns[ExpectedTables[4]] == CategoriesColumns {}
  lemma CategoriesColumnsDistinct() ensures forall j, k :: 0 <= j < k < |CategoriesColumns| ==> CategoriesColumns[j] != CategoriesColumns[k] {}

  lemma BrandsIndexesAt() ensures ExpectedTableIndexes[ExpectedTables[5]] == BrandsIndexes {}
  lemma BrandsIndexesPrefixed() ensures forall n :: n in BrandsIndexes ==> StartsWith(n, "IDX_") {}
  lemma BrandsIndexesUpper() ensures forall n :: n in BrandsIndexes ==> NoLower(n) {}
  lemma BrandsIndexesWithoutAuto() ensures forall n, k :: n in BrandsIndexes ==> !AutoAt(n, k) {}
  lemma BrandsIndexesDistinct() ensures forall j, k :: 0 <= j < k < |BrandsIndexes| ==> BrandsIndexes[j] != BrandsIndexes[k] {}
  lemma BrandsColumnsAt() ensures ExpectedTableColumns[ExpectedTables[5]] == BrandsColumns {}
  lemma BrandsColumnsDistinct() ensures forall j, k :: 0 <= j < k < |BrandsColumns| ==> BrandsColumns[j] != BrandsColumns[k] {}

  lemma SuppliersIndexesAt() ensures ExpectedTableIndexes[ExpectedTables[6]] == SuppliersIndexes {}
  lemma SuppliersIndexesPrefixed() ensures forall n :: n in SuppliersIndexes ==> StartsWith(n, "IDX_") {}
  lemma SuppliersIndexesUpper() ensures forall n :: n in SuppliersIndexes ==> NoLower(n) {}
  lemma SuppliersIndexesWithoutAuto() ensures forall n, k :: n in SuppliersIndexes ==> !AutoAt(n, k) {}
  lemma SuppliersIndexesDistinct() ensures forall j, k :: 0 <= j < k < |SuppliersIndexes| ==> SuppliersIndexes[j] != SuppliersIndexes[k] {}
  lemma SuppliersColumnsAt() ensures ExpectedTableColumns[ExpectedTables[6]] == SuppliersColumns {}
  lemma SuppliersColumnsDistinct() ensures forall j, k :: 0 <= j < k < |SuppliersColumns| ==> SuppliersColumns[j] != SuppliersColumns[k] {}

  lemma ProductsIndexesAt() ensures ExpectedTableIndexes[ExpectedTables[7]] == ProductsIndexes {}
  lemma ProductsIndexesPrefixed() ensures forall n :: n in ProductsIndexes ==> StartsWith(n, "IDX_") {}
  lemma ProductsIndexesUpper() ensures forall n :: n in ProductsIndexes ==> NoLower(n) {}
  lemma ProductsIndexesWithoutAuto() ensures forall n, k :: n in ProductsIndexes ==> !AutoAt(n, k) {}
  lemma ProductsIndexesDistinct() ensures forall j, k :: 0 <= j < k < |ProductsIndexes| ==> ProductsIndexes[j] != ProductsIndexes[k] {}
  lemma ProductsColumnsAt() ensures ExpectedTableColumns[ExpectedTables[7]] == ProductsColumns {}
  lemma ProductsColumnsDistinct() ensures forall j, k :: 0 <= j < k < |ProductsColumns| ==> ProductsColumns[j] != ProductsColumns[k] {}

  lemma ProductVariantsIndexesAt() ensures ExpectedTableIndexes[ExpectedTables[8]] == ProductVariantsIndexes {}
  lemma ProductVariantsIndexesPrefixed() ensures forall n :: n in ProductVariantsIndexes ==> StartsWith(n, "IDX_") {}
  lemma ProductVariantsIndexesUpper() ensures forall n :: n in ProductVariantsIndexes ==> NoLower(n) {}
  lemma ProductVariantsIndexesWithoutAuto() ensures forall n, k :: n in ProductVariantsIndexes ==> !AutoAt(n, k) {}
  lemma ProductVariantsIndexesDistinct() ensures forall j, k :: 0 <= j < k < |ProductVariantsIndexes| ==> ProductVariantsIndexes[j] != ProductVariantsIndexes[k] {}
  lemma ProductVariantsColumnsAt() ensures ExpectedTableColumns[ExpectedTables[8]] == ProductVariantsColumns {}
  lemma ProductVariantsColumnsDistinct() ensures forall j, k :: 0 <= j < k < |ProductVariantsColumns| ==> ProductVariantsColumns[j] != ProductVariantsColumns[k] {}

  lemma ProductAttributesIndexesAt() ensures ExpectedTableIndexes[ExpectedTables[9]] == ProductAttributesIndexes {}
  lemma ProductAttributesIndexesPrefixed() ensures forall n :: n in ProductAttributesIndexes ==> StartsWith(n, "IDX_") {}
  lemma ProductAttributesIndexesUpper() ensures forall n :: n in ProductAttributesIndexes ==> NoLower(n) {}
  lemma ProductAttributesIndexesWithoutAuto() ensures forall n, k :: n in ProductAttributesIndexes ==> !AutoAt(n, k) {}
  lemma ProductAttributesIndexesDistinct() ensures forall j, k :: 0 <= j < k < |ProductAttributesIndexes| ==> ProductAttributesIndexes[j] != ProductAttributesIndexes[k] {}
  lemma ProductAttributesColumnsAt() ensures ExpectedTableColumns[ExpectedTables[9]] == ProductAttributesColumns {}
  lemma ProductAttributesColumnsDistinct() ensures forall j, k :: 0 <= j < k < |ProductAttributesColumns| ==> ProductAttributesColumns[j] != ProductAttributesColumns[k] {}

  lemma ProductImagesIndexesAt() ensures ExpectedTableIndexes[ExpectedTables[10]] == ProductImagesIndexes {}
  lemma ProductImagesIndexesPrefixed() ensures forall n :: n in ProductImagesIndexes ==> StartsWith(n, "IDX_") {}
  lemma ProductImagesIndexesUpper() ensures forall n :: n in ProductImagesIndexes ==> NoLower(n) {}
  lemma ProductImagesIndexesWithoutAuto() ensures forall n, k :: n in ProductImagesIndexes ==> !AutoAt(n, k) {}
  lemma ProductImagesIndexesDistinct() ensures forall j, k :: 0 <= j < k < |ProductImagesIndexes| ==> ProductImagesIndexes[j] != ProductImagesIndexes[k] {}
  lemma ProductImagesColumnsAt() ensures ExpectedTableColumns[ExpectedTables[10]] == ProductImagesColumns {}
  lemma ProductImagesColumnsDistinct() ensures forall j, k :: 0 <= j < k < |ProductImagesColumns| ==> ProductImagesColumns[j] != ProductImagesColumns[k] {}

  lemma ProductReviewsIndexesAt() ensures ExpectedTableIndexes[ExpectedTables[11]] == ProductReviewsIndexes {}
  lemma ProductReviewsIndexesPrefixed() ensures forall n :: n in ProductReviewsIndexes ==> StartsWith(n, "IDX_") {}
  lemma ProductReviewsIndexesUpper() ensures forall n :: n in ProductReviewsIndexes ==> NoLower(n) {}
  lemma ProductReviewsIndexesWithoutAuto() ensures forall n, k :: n in ProductReviewsIndexes ==> !AutoAt(n, k) {}
  lemma ProductReviewsIndexesDistinct() ensures forall j, k :: 0 <= j < k < |ProductReviewsIndexes| ==> ProductReviewsIndexes[j] != ProductReviewsIndexes[k] {}
  lemma ProductReviewsColumnsAt() ensures ExpectedTableColumns[ExpectedTables[11]] == ProductReviewsColumns {}
  lemma ProductReviewsColumnsDistinct() ensures forall j, k :: 0 <= j < k < |ProductReviewsColumns| ==> ProductReviewsColumns[j] != ProductReviewsColumns[k] {}

  lemma ProductTagsIndexesAt() ensures ExpectedTableIndexes[ExpectedTables[12]] == ProductTagsIndexes {}
  lemma ProductTagsIndexesPrefixed() ensures forall n :: n in ProductTagsIndexes ==> StartsWith(n, "IDX_") {}
  lemma ProductTagsIndexesUpper() ensures forall n :: n in ProductTagsIndexes ==> NoLower(n) {}
  lemma ProductTagsIndexesWithoutAuto() ensures forall n, k :: n in ProductTagsIndexes ==> !AutoAt(n, k) {}
  lemma ProductTagsIndexesDistinct() ensures forall j, k :: 0 <= j < k < |ProductTagsIndexes| ==> ProductTagsIndexes[j] != ProductTagsIndexes[k] {}
  lemma ProductTagsColumnsAt() ensures ExpectedTableColumns[ExpectedTables[12]] == ProductTagsColumns {}
  lemma ProductTagsColumnsDistinct() ensures forall j, k :: 0 <= j < k < |ProductTagsColumns| ==> ProductTagsColumns[j] != ProductTagsColumns[k] {}

  lemma TagsIndexesAt() ensures ExpectedTableIndexes[ExpectedTables[13]] == TagsIndexes {}
  lemma TagsIndexesPrefixed() ensures forall n :: n in TagsIndexes ==> StartsWith(n, "IDX_") {}
  lemma TagsIndexesUpper() ensures forall n :: n in TagsIndexes ==> NoLower(n) {}
  lemma TagsIndexesWithoutAuto() ensures forall n, k :: n in TagsIndexes ==> !AutoAt(n, k) {}
  lemma TagsIndexesDistinct() ensures forall j, k :: 0 <= j < k < |TagsIndexes| ==> TagsIndexes[j] != TagsIndexes[k] {}
  lemma TagsColumnsAt() ensures ExpectedTableColumns[ExpectedTables[13]] == TagsColumns {}
  lemma TagsColumnsDistinct() ensures forall j, k :: 0 <= j < k < |TagsColumns| ==> TagsColumns[j] != TagsColumns[k] {}

  lemma InventoryLocationsIndexesAt() ensures ExpectedTableIndexes[ExpectedTables[14]] == InventoryLocationsIndexes {}
  lemma InventoryLocationsIndexesPrefixed() ensures forall n :: n in InventoryLocationsIndexes ==> StartsWith(n, "IDX_") {}
  lemma InventoryLocationsIndexesUpper() ensures forall n :: n in InventoryLocationsIndexes ==> NoLower(n) {}
  lemma InventoryLocationsIndexesWithoutAuto() ensures forall n, k :: n in InventoryLocationsIndexes ==> !AutoAt(n, k) {}
  lemma InventoryLocationsIndexesDistinct() ensures forall j, k :: 0 <= j < k < |InventoryLocationsIndexes| ==> InventoryLocationsIndexes[j] != InventoryLocationsIndexes[k] {}
  lemma InventoryLocationsColumnsAt() ensures ExpectedTableColumns[ExpectedTables[14]] == InventoryLocationsColumns {}
  lemma InventoryLocationsColumnsDistinct() ensures forall j, k :: 0 <= j < k < |InventoryLocationsColumns| ==> InventoryLocationsColumns[j] != InventoryLocationsColumns[k] {}

  lemma InventoryStockIndexesAt() ensures ExpectedTableIndexes[ExpectedTables[15]] == InventoryStockIndexes {}
  lemma InventoryStockIndexesPrefixed() ensures forall n :: n in InventoryStockIndexes ==> StartsWith(n, "IDX_") {}
  lemma InventoryStockIndexesUpper() ensures forall n :: n in InventoryStockIndexes ==> NoLower(n) {}
  lemma InventoryStockIndexesWithoutAuto() ensures forall n, k :: n in InventoryStockIndexes ==> !AutoAt(n, k) {}
  lemma InventoryStockIndexesDistinct() ensures forall j, k :: 0 <= j < k < |InventoryStockIndexes| ==> InventoryStockIndexes[j] != InventoryStockIndexes[k] {}
  lemma InventoryStockColumnsAt() ensures ExpectedTableColumns[ExpectedTables[15]] == InventoryStockColumns {}
  lemma InventoryStockColumnsDistinct() ensures forall j, k :: 0 <= j < k < |InventoryStockColumns| ==> InventoryStockColumns[j] != InventoryStockColumns[k] {}

  lemma InventoryLogIndexesAt() ensures ExpectedTableIndexes[ExpectedTables[16]] == InventoryLogIndexes {}
  lemma InventoryLogIndexesPrefixed() ensures forall n :: n in InventoryLogIndexes ==> StartsWith(n, "IDX_") {}
  lemma InventoryLogIndexesUpper() ensures forall n :: n in InventoryLogIndexes ==> NoLower(n) {}
  lemma InventoryLogIndexesWithoutAuto() ensures forall n, k :: n in InventoryLogIndexes ==> !AutoAt(n, k) {}
  lemma InventoryLogIndexesDistinct() ensures forall j, k :: 0 <= j < k < |InventoryLogIndexes| ==> InventoryLogIndexes[j] != InventoryLogIndexes[k] {}
  lemma InventoryLogColumnsAt() ensures ExpectedTableColumns[ExpectedTables[16]] == InventoryLogColumns {}
  lemma InventoryLogColumnsDistinct() ensures forall j, k :: 0 <= j < k < |InventoryLogColumns| ==> InventoryLogColumns[j] != InventoryLogColumns[k] {}

  lemma InventoryAlertsIndexesAt() ensures ExpectedTableIndexes[ExpectedTables[17]] == InventoryAlertsIndexes {}
  lemma InventoryAlertsIndexesPrefixed() ensures forall n :: n in InventoryAlertsIndexes ==> StartsWith(n, "IDX_") {}
  lemma InventoryAlertsIndexesUpper() ensures forall n :: n in InventoryAlertsIndexes ==> NoLower(n) {}
  lemma InventoryAlertsIndexesWithoutAuto() ensures forall n, k :: n in InventoryAlertsIndexes ==> !AutoAt(n, k) {}
  lemma InventoryAlertsIndexesDistinct() ensures forall j, k :: 0 <= j < k < |InventoryAlertsIndexes| ==> InventoryAlertsIndexes[j] != InventoryAlertsIndexes[k] {}
  lemma InventoryAlertsColumnsAt() ensures ExpectedTableColumns[ExpectedTables[17]] == InventoryAlertsColumns {}
  lemma InventoryAlertsColumnsDistinct() ensures forall j, k :: 0 <= j < k < |InventoryAlertsColumns| ==> InventoryAlertsColumns[j] != InventoryAlertsColumns[k] {}

  lemma OrdersIndexesAt() ensures ExpectedTableIndexes[ExpectedTables[18]] == OrdersIndexes {}
  lemma OrdersIndexesPrefixed() ensures forall n :: n in OrdersIndexes ==> StartsWith(n, "IDX_") {}
  lemma OrdersIndexesUpper() ensures forall n :: n in OrdersIndexes ==> NoLower(n) {}
  lemma OrdersIndexesWithoutAuto() ensures forall n, k :: n in OrdersIndexes ==> !AutoAt(n, k) {}
  lemma OrdersIndexesDistinct() ensures forall j, k :: 0 <= j < k < |OrdersIndexes| ==> OrdersIndexes[j] != OrdersIndexes[k] {}
  lemma OrdersColumnsAt() ensures ExpectedTableColumns[ExpectedTables[18]] == OrdersColumns {}
  lemma OrdersColumnsDistinct() ensures forall j, k :: 0 <= j < k < |OrdersColumns| ==> OrdersColumns[j] != OrdersColumns[k] {}

  lemma OrderItemsIndexesAt() ensures ExpectedTableIndexes[ExpectedTables[19]] == OrderItemsIndexes {}
  lemma OrderItemsIndexesPrefixed() ensures forall n :: n in OrderItemsIndexes ==> StartsWith(n, "IDX_") {}
  lemma OrderItemsIndexesUpper() ensures forall n :: n in OrderItemsIndexes ==> NoLower(n) {}
  lemma OrderItemsIndexesWithoutAuto() ensures forall n, k :: n in OrderItemsIndexes ==> !AutoAt(n, k) {}
  lemma OrderItemsIndexesDistinct() ensures forall j, k :: 0 <= j < k < |OrderItemsIndexes| ==> OrderItemsIndexes[j] != OrderItemsIndexes[k] {}
  lemma OrderItemsColumnsAt() ensures ExpectedTableColumns[ExpectedTables[19]] == OrderItemsColumns {}
  lemma OrderItemsColumnsDistinct() ensures forall j, k :: 0 <= j < k < |OrderItemsColumns| ==> OrderItemsColumns[j] != OrderItemsColumns[k] {}

  lemma OrderAddressesIndexesAt() ensures ExpectedTableIndexes[ExpectedTables[20]] == OrderAddressesIndexes {}
  lemma OrderAddressesIndexesPrefixed() ensures forall n :: n in OrderAddressesIndexes ==> StartsWith(n, "IDX_") {}
  lemma OrderAddressesIndexesUpper() ensures forall n :: n in OrderAddressesIndexes ==> NoLower(n) {}
  lemma OrderAddressesIndexesWithoutAuto() ensures forall n, k :: n in OrderAddressesIndexes ==> !AutoAt(n, k) {}
  lemma OrderAddressesIndexesDistinct() ensures forall j, k :: 0 <= j < k < |OrderAddressesIndexes| ==> OrderAddressesIndexes[j] != OrderAddressesIndexes[k] {}
  lemma OrderAddressesColumnsAt() ensures ExpectedTableColumns[ExpectedTables[20]] == OrderAddressesColumns {}
  lemma OrderAddressesColumnsDistinct() ensures forall j, k :: 0 <= j < k < |OrderAddressesColumns| ==> OrderAddressesColumns[j] != OrderAddressesColumns[k] {}

  lemma OrderPaymentsIndexesAt() ensures ExpectedTableIndexes[ExpectedTables[21]] == OrderPaymentsIndexes {}
  lemma OrderPaymentsIndexesPrefixed() ensures forall n :: n in OrderPaymentsIndexes ==> StartsWith(n, "IDX_") {}
  lemma OrderPaymentsIndexesUpper() ensures forall n :: n in OrderPaymentsIndexes ==> NoLower(n) {}
  lemma OrderPaymentsIndexesWithoutAuto() ensures forall n, k :: n in OrderPaymentsIndexes ==> !AutoAt(n, k) {}
  lemma OrderPaymentsIndexesDistinct() ensures forall j, k :: 0 <= j < k < |OrderPaymentsIndexes| ==> OrderPaymentsIndexes[j] != OrderPaymentsIndexes[k] {}
  lemma OrderPaymentsColumnsAt() ensures ExpectedTableColumns[ExpectedTables[21]] == OrderPaymentsColumns {}
  lemma OrderPaymentsColumnsDistinct() ensures forall j, k :: 0 <= j < k < |OrderPaymentsColumns| ==> OrderPaymentsColumns[j] != OrderPaymentsColumns[k] {}

  lemma OrderShipmentsIndexesAt() ensures ExpectedTableIndexes[ExpectedTables[22]] == OrderShipmentsIndexes {}
  lemma OrderShipmentsIndexesPrefixed() ensures forall n :: n in OrderShipmentsIndexes ==> StartsWith(n, "IDX_") {}
  lemma OrderShipmentsIndexesUpper() ensures forall n :: n in OrderShipmentsIndexes ==> NoLower(n) {}
  lemma OrderShipmentsIndexesWithoutAuto() ensures forall n, k :: n in OrderShipmentsIndexes ==> !AutoAt(n, k) {}
  lemma OrderShipmentsIndexesDistinct() ensures forall j, k :: 0 <= j < k < |OrderShipmentsIndexes| ==> OrderShipmentsIndexes[j] != OrderShipmentsIndexes[k] {}
  lemma OrderShipmentsColumnsAt() ensures ExpectedTableColumns[ExpectedTables[22]] == OrderShipmentsColumns {}
  lemma OrderShipmentsColumnsDistinct() ensures forall j, k :: 0 <= j < k < |OrderShipmentsColumns| ==> OrderShipmentsColumns[j] != OrderShipmentsColumns[k] {}

  lemma ShoppingCartsIndexesAt() ensures ExpectedTableIndexes[ExpectedTables[23]] == ShoppingCartsIndexes {}
  lemma ShoppingCartsIndexesPrefixed() ensures forall n :: n in ShoppingCartsIndexes ==> StartsWith(n, "IDX_") {}
  lemma ShoppingCartsIndexesUpper() ensures forall n :: n in ShoppingCartsIndexes ==> NoLower(n) {}
  lemma ShoppingCartsIndexesWithoutAuto() ensures forall n, k :: n in ShoppingCartsIndexes ==> !AutoAt(n, k) {}
  lemma ShoppingCartsIndexesDistinct() ensures forall j, k :: 0 <= j < k < |ShoppingCartsIndexes| ==> ShoppingCartsIndexes[j] != ShoppingCartsIndexes[k] {}
  lemma ShoppingCartsColumnsAt() ensures ExpectedTableColumns[ExpectedTables[23]] == ShoppingCartsColumns {}
  lemma ShoppingCartsColumnsDistinct() ensures forall j, k :: 0 <= j < k < |ShoppingCartsColumns| ==> ShoppingCartsColumns[j] != ShoppingCartsColumns[k] {}

  lemma ShoppingCartItemsIndexesAt() ensures ExpectedTableIndexes[ExpectedTables[24]] == ShoppingCartItemsIndexes {}
  lemma ShoppingCartItemsIndexesPrefixed() ensures forall n :: n in ShoppingCartItemsIndexes ==> StartsWith(n, "IDX_") {}
  lemma ShoppingCartItemsIndexesUpper() ensures forall n :: n in ShoppingCartItemsIndexes ==> NoLower(n) {}
  lemma ShoppingCartItemsIndexesWithoutAuto() ensures forall n, k :: n in ShoppingCartItemsIndexes ==> !AutoAt(n, k) {}
  lemma ShoppingCartItemsIndexesDistinct() ensures forall j, k :: 0 <= j < k < |ShoppingCartItemsIndexes| ==> ShoppingCartItemsIndexes[j] != ShoppingCartItemsIndexes[k] {}
  lemma ShoppingCartItemsColumnsAt() ensures ExpectedTableColumns[ExpectedTables[24]] == ShoppingCartItemsColumns {}
  lemma ShoppingCartItemsColumnsDistinct() ensures forall j, k :: 0 <= j < k < |ShoppingCartItemsColumns| ==> ShoppingCartItemsColumns[j] != ShoppingCartItemsColumns[k] {}

  lemma WishlistsIndexesAt() ensures ExpectedTableIndexes[ExpectedTables[25]] == WishlistsIndexes {}
  lemma WishlistsIndexesPrefixed() ensures forall n :: n in WishlistsIndexes ==> StartsWith(n, "IDX_") {}
  lemma WishlistsIndexesUpper() ensures forall n :: n in WishlistsIndexes ==> NoLower(n) {}
  lemma WishlistsIndexesWithoutAuto() ensures forall n, k :: n in WishlistsIndexes ==> !AutoAt(n, k) {}
  lemma WishlistsIndexesDistinct() ensures forall j, k :: 0 <= j < k < |WishlistsIndexes| ==> WishlistsIndexes[j] != WishlistsIndexes[k] {}
  lemma WishlistsColumnsAt() ensures ExpectedTableColumns[ExpectedTables[25]] == WishlistsColumns {}
  lemma WishlistsColumnsDistinct() ensures forall j, k :: 0 <= j < k < |WishlistsColumns| ==> WishlistsColumns[j] != WishlistsColumns[k] {}

  lemma WishlistItemsIndexesAt() ensures ExpectedTableIndexes[ExpectedTables[26]] == WishlistItemsIndexes {}
  lemma WishlistItemsIndexesPrefixed() ensures forall n :: n in WishlistItemsIndexes ==> StartsWith(n, "IDX_") {}
  lemma WishlistItemsIndexesUpper() ensures forall n :: n in WishlistItemsIndexes ==> NoLower(n) {}
  lemma WishlistItemsIndexesWithoutAuto() ensures forall n, k :: n in WishlistItemsIndexes ==> !AutoAt(n, k) {}
  lemma WishlistItemsIndexesDistinct() ensures forall j, k :: 0 <= j < k < |WishlistItemsIndexes| ==> WishlistItemsIndexes[j] != WishlistItemsIndexes[k] {}
  lemma WishlistItemsColumnsAt() ensures ExpectedTableColumns[ExpectedTables[26]] == WishlistItemsColumns {}
  lemma WishlistItemsColumnsDistinct() ensures forall j, k :: 0 <= j < k < |WishlistItemsColumns| ==> WishlistItemsColumns[j] != WishlistItemsColumns[k] {}

  lemma CouponsIndexesAt() ensures ExpectedTableIndexes[ExpectedTables[27]] == CouponsIndexes {}
  lemma CouponsIndexesPrefixed() ensures forall n :: n in CouponsIndexes ==> StartsWith(n, "IDX_") {}
  lemma CouponsIndexesUpper() ensures forall n :: n in CouponsIndexes ==> NoLower(n) {}
  lemma CouponsIndexesWithoutAuto() ensures forall n, k :: n in CouponsIndexes ==> !AutoAt(n, k) {}
  lemma CouponsIndexesDistinct() ensures forall j, k :: 0 <= j < k < |CouponsIndexes| ==> CouponsIndexes[j] != CouponsIndexes[k] {}
  lemma CouponsColumnsAt() ensures ExpectedTableColumns[ExpectedTables[27]] == CouponsColumns {}
  lemma CouponsColumnsDistinct() ensures forall j, k :: 0 <= j < k < |CouponsColumns| ==> CouponsColumns[j] != CouponsColumns[k] {}

  lemma CouponUsageIndexesAt() ensures ExpectedTableIndexes[ExpectedTables[28]] == CouponUsageIndexes {}
  lemma CouponUsageIndexesPrefixed() ensures forall n :: n in CouponUsageIndexes ==> StartsWith(n, "IDX_") {}
  lemma CouponUsageIndexesUpper() ensures forall n :: n in CouponUsageIndexes ==> NoLower(n) {}
  lemma CouponUsageIndexesWithoutAuto() ensures forall n, k :: n in CouponUsageIndexes ==> !AutoAt(n, k) {}
  lemma CouponUsageIndexesDistinct() ensures forall j, k :: 0 <= j < k < |CouponUsageIndexes| ==> CouponUsageIndexes[j] != CouponUsageIndexes[k] {}
  lemma CouponUsageColumnsAt() ensures ExpectedTableColumns[ExpectedTables[28]] == CouponUsageColumns {}
  lemma CouponUsageColumnsDistinct() ensures forall j, k :: 0 <= j < k < |CouponUsageColumns| ==> CouponUsageColumns[j] != CouponUsageColumns[k] {}

  lemma AuditLogIndexesAt() ensures ExpectedTableIndexes[ExpectedTables[29]] == AuditLogIndexes {}
  lemma AuditLogIndexesPrefixed() ensures forall n :: n in AuditLogIndexes ==> StartsWith(n, "IDX_") {}
  lemma AuditLogIndexesUpper() ensures forall n :: n in AuditLogIndexes ==> NoLower(n) {}
  lemma AuditLogIndexesWithoutAuto() ensures forall n, k :: n in AuditLogIndexes ==> !AutoAt(n, k) {}
  lemma AuditLogIndexesDistinct() ensures forall j, k :: 0 <= j < k < |AuditLogIndexes| ==> AuditLogIndexes[j] != AuditLogIndexes[k] {}
  lemma AuditLogColumnsAt() ensures ExpectedTableColumns[ExpectedTables[29]] == AuditLogColumns {}
  lemma AuditLogColumnsDistinct() ensures forall j, k :: 0 <= j < k < |AuditLogColumns| ==> AuditLogColumns[j] != AuditLogColumns[k] {}

  lemma EmailVerificationTokensIndexesAt() ensures ExpectedTableIndexes[ExpectedTables[30]] == EmailVerificationTokensIndexes {}
  lemma EmailVerificationTokensIndexesPrefixed() ensures forall n :: n in EmailVerificationTokensIndexes ==> StartsWith(n, "IDX_") {}
  lemma EmailVerificationTokensIndexesUpper() ensures forall n :: n in EmailVerificationTokensIndexes ==> NoLower(n) {}
  lemma EmailVerificationTokensIndexesWithoutAuto() ensures forall n, k :: n in EmailVerificationTokensIndexes ==> !AutoAt(n, k) {}
  lemma EmailVerificationTokensIndexesDistinct() ensures forall j, k :: 0 <= j < k < |EmailVerificationTokensIndexes| ==> EmailVerificationTokensIndexes[j] != EmailVerificationTokensIndexes[k] {}
  lemma EmailVerificationTokensColumnsAt() ensures ExpectedTableColumns[ExpectedTables[30]] == EmailVerificationTokensColumns {}
  lemma EmailVerificationTokensColumnsDistinct() ensures forall j, k :: 0 <= j < k < |EmailVerificationTokensColumns| ==> EmailVerificationTokensColumns[j] != EmailVerificationTokensColumns[k] {}

  lemma PasswordResetTokensIndexesAt() ensures ExpectedTableIndexes[ExpectedTables[31]] == PasswordResetTokensIndexes {}
  lemma PasswordResetTokensIndexesPrefixed() ensures forall n :: n in PasswordResetTokensIndexes ==> StartsWith(n, "IDX_") {}
  lemma PasswordResetTokensIndexesUpper() ensures forall n :: n in PasswordResetTokensIndexes ==> NoLower(n) {}
  lemma PasswordResetTokensIndexesWithoutAuto() ensures forall n, k :: n in PasswordResetTokensIndexes ==> !AutoAt(n, k) {}
  lemma PasswordResetTokensIndexesDistinct() ensures forall j, k :: 0 <= j < k < |PasswordResetTokensIndexes| ==> PasswordResetTokensIndexes[j] != PasswordResetTokensIndexes[k] {}
  lemma PasswordResetTokensColumnsAt() ensures ExpectedTableColumns[ExpectedTables[31]] == PasswordResetTokensColumns {}
  lemma PasswordResetTokensColumnsDistinct() ensures forall j, k :: 0 <= j < k < |PasswordResetTokensColumns| ==> PasswordResetTokensColumns[j] != PasswordResetTokensColumns[k] {}

  /** The index list of the table at position `i` exists and names upper-case `IDX_` indexes only. */
  lemma IndexListAt(i: nat)
    requires i < |ExpectedTables|
    ensures ExpectedTables[i] in ExpectedTableIndexes
    ensures forall n :: n in ExpectedTableIndexes[ExpectedTables[i]] ==> StartsWith(n, "IDX_")
    ensures forall n :: n in ExpectedTableIndexes[ExpectedTables[i]] ==> NoLower(n)
  {
    IndexExpectationsCoverTheTables();
    if i == 0 {
      CustomersIndexesAt(); CustomersIndexesPrefixed(); CustomersIndexesUpper();
    } else if i == 1 {
      CustomerPreferencesIndexesAt(); CustomerPreferencesIndexesPrefixed(); CustomerPreferencesIndexesUpper();
    } else if i == 2 {
      CustomerAddressesIndexesAt(); CustomerAddressesIndexesPrefixed(); CustomerAddressesIndexesUpper();
    } else if i == 3 {
      UserSessionsIndexesAt(); UserSessionsIndexesPrefixed(); UserSessionsIndexesUpper();
    } else if i == 4 {
      CategoriesIndexesAt(); CategoriesIndexesPrefixed(); CategoriesIndexesUpper();
    } else if i == 5 {
      BrandsIndexesAt(); BrandsIndexesPrefixed(); BrandsIndexesUpper();
    } else if i == 6 {
      SuppliersIndexesAt(); SuppliersIndexesPrefixed(); SuppliersIndexesUpper();
    } else if i == 7 {
      ProductsIndexesAt(); ProductsIndexesPrefixed(); ProductsIndexesUpper();
    } else if i == 8 {
      ProductVariantsIndexesAt(); ProductVariantsIndexesPrefixed(); ProductVariantsIndexesUpper();
    } else if i == 9 {
      ProductAttributesIndexesAt(); ProductAttributesIndexesPrefixed(); ProductAttributesIndexesUpper();
    } else if i == 10 {
      ProductImagesIndexesAt(); ProductImagesIndexesPrefixed(); ProductImagesIndexesUpper();
    } else if i == 11 {
      ProductReviewsIndexesAt(); ProductReviewsIndexesPrefixed(); ProductReviewsIndexesUpper();
    } else if i == 12 {
      ProductTagsIndexesAt(); ProductTagsIndexesPrefixed(); ProductTagsIndexesUpper();
    } else if i == 13 {
      TagsIndexesAt(); TagsIndexesPrefixed(); TagsIndexesUpper();
    } else if i == 14 {
      InventoryLocationsIndexesAt(); InventoryLocationsIndexesPrefixed(); InventoryLocationsIndexesUpper();
    } else if i == 15 {
      InventoryStockIndexesAt(); InventoryStockIndexesPrefixed(); InventoryStockIndexesUpper();
    } else if i == 16 {
      InventoryLogIndexesAt(); InventoryLogIndexesPrefixed(); InventoryLogIndexesUpper();
    } else if i == 17 {
      InventoryAlertsIndexesAt(); InventoryAlertsIndexesPrefixed(); InventoryAlertsIndexesUpper();
    } else if i == 18 {
      OrdersIndexesAt(); OrdersIndexesPrefixed(); OrdersIndexesUpper();
    } else if i == 19 {
      OrderItemsIndexesAt(); OrderItemsIndexesPrefixed(); OrderItemsIndexesUpper();
    } else if i == 20 {
      OrderAddressesIndexesAt(); OrderAddressesIndexesPrefixed(); OrderAddressesIndexesUpper();
    } else if i == 21 {
      OrderPaymentsIndexesAt(); OrderPaymentsIndexesPrefixed(); OrderPaymentsIndexesUpper();
    } else if i == 22 {
      OrderShipmentsIndexesAt(); OrderShipmentsIndexesPrefixed(); OrderShipmentsIndexesUpper();
    } else if i == 23 {
      ShoppingCartsIndexesAt(); ShoppingCartsIndexesPrefixed(); ShoppingCartsIndexesUpper();
    } else if i == 24 {
      ShoppingCartItemsIndexesAt(); ShoppingCartItemsIndexesPrefixed(); ShoppingCartItemsIndexesUpper();
    } else if i == 25 {
      WishlistsIndexesAt(); WishlistsIndexesPrefixed(); WishlistsIndexesUpper();
    } else if i == 26 {
      WishlistItemsIndexesAt(); WishlistItemsIndexesPrefixed(); WishlistItemsIndexesUpper();
    } else if i == 27 {
      CouponsIndexesAt(); CouponsIndexesPrefixed(); CouponsIndexesUpper();
    } else if i == 28 {
      CouponUsageIndexesAt(); CouponUsageIndexesPrefixed(); CouponUsageIndexesUpper();
    } else if i == 29 {
      AuditLogIndexesAt(); AuditLogIndexesPrefixed(); AuditLogIndexesUpper();
    } else if i == 30 {
      EmailVerificationTokensIndexesAt(); EmailVerificationTokensIndexesPrefixed(); EmailVerificationTokensIndexesUpper();
    } else {
      PasswordResetTokensIndexesAt(); PasswordResetTokensIndexesPrefixed(); PasswordResetTokensIndexesUpper();
    }
  }

  /** The index list of the table at position `i` has no name containing `AUTO_` and repeats no name. */
  lemma IndexListCleanAt(i: nat)
    requires i < |ExpectedTables|
    ensures ExpectedTables[i] in ExpectedTableIndexes
    ensures forall n, k :: n in ExpectedTableIndexes[ExpectedTables[i]] ==> !AutoAt(n, k)
    ensures forall j, k :: 0 <= j < k < |ExpectedTableIndexes[ExpectedTables[i]]| ==>
      ExpectedTableIndexes[ExpectedTables[i]][j] != ExpectedTableIndexes[ExpectedTables[i]][k]
  {
    IndexExpectationsCoverTheTables();
    if i == 0 {
      CustomersIndexesAt(); CustomersIndexesWithoutAuto(); CustomersIndexesDistinct();
    } else if i == 1 {
      CustomerPreferencesIndexesAt(); CustomerPreferencesIndexesWithoutAuto(); CustomerPreferencesIndexesDistinct();
    } else if i == 2 {
      CustomerAddressesIndexesAt(); CustomerAddressesIndexesWithoutAuto(); CustomerAddressesIndexesDistinct();
    } else if i == 3 {
      UserSessionsIndexesAt(); UserSessionsIndexesWithoutAuto(); UserSessionsIndexesDistinct();
    } else if i == 4 {
      CategoriesIndexesAt(); CategoriesIndexesWithoutAuto(); CategoriesIndexesDistinct();
    } else if i == 5 {
      BrandsIndexesAt(); BrandsIndexesWithoutAuto(); BrandsIndexesDistinct();
    } else if i == 6 {
      SuppliersIndexesAt(); SuppliersIndexesWithoutAuto(); SuppliersIndexesDistinct();
    } else if i == 7 {
      ProductsIndexesAt(); ProductsIndexesWithoutAuto(); ProductsIndexesDistinct();
    } else if i == 8 {
      ProductVariantsIndexesAt(); ProductVariantsIndexesWithoutAuto(); ProductVariantsIndexesDistinct();
    } else if i == 9 {
      ProductAttributesIndexesAt(); ProductAttributesIndexesWithoutAuto(); ProductAttributesIndexesDistinct();
    } else if i == 10 {
      ProductImagesIndexesAt(); ProductImagesIndexesWithoutAuto(); ProductImagesIndexesDistinct();
    } else if i == 11 {
      ProductReviewsIndexesAt(); ProductReviewsIndexesWithoutAuto(); ProductReviewsIndexesDistinct();
    } else if i == 12 {
      ProductTagsIndexesAt(); ProductTagsIndexesWithoutAuto(); ProductTagsIndexesDistinct();
    } else if i == 13 {
      TagsIndexesAt(); TagsIndexesWithoutAuto(); TagsIndexesDistinct();
    } else if i == 14 {
      InventoryLocationsIndexesAt(); InventoryLocationsIndexesWithoutAuto(); InventoryLocationsIndexesDistinct();
    } else if i == 15 {
      InventoryStockIndexesAt(); InventoryStockIndexesWithoutAuto(); InventoryStockIndexesDistinct();
    } else if i == 16 {
      InventoryLogIndexesAt(); InventoryLogIndexesWithoutAuto(); InventoryLogIndexesDistinct();
    } else if i == 17 {
      InventoryAlertsIndexesAt(); InventoryAlertsIndexesWithoutAuto(); InventoryAlertsIndexesDistinct();
    } else if i == 18 {
      OrdersIndexesAt(); OrdersIndexesWithoutAuto(); OrdersIndexesDistinct();
    } else if i == 19 {
      OrderItemsIndexesAt(); OrderItemsIndexesWithoutAuto(); OrderItemsIndexesDistinct();
    } else if i == 20 {
      OrderAddressesIndexesAt(); OrderAddressesIndexesWithoutAuto(); OrderAddressesIndexesDistinct();
    } else if i == 21 {
      OrderPaymentsIndexesAt(); OrderPaymentsIndexesWithoutAuto(); OrderPaymentsIndexesDistinct();
    } else if i == 22 {
      OrderShipmentsIndexesAt(); OrderShipmentsIndexesWithoutAuto(); OrderShipmentsIndexesDistinct();
    } else if i == 23 {
      ShoppingCartsIndexesAt(); ShoppingCartsIndexesWithoutAuto(); ShoppingCartsIndexesDistinct();
    } else if i == 24 {
      ShoppingCartItemsIndexesAt(); ShoppingCartItemsIndexesWithoutAuto(); ShoppingCartItemsIndexesDistinct();
    } else if i == 25 {
      WishlistsIndexesAt(); WishlistsIndexesWithoutAuto(); WishlistsIndexesDistinct();
    } else if i == 26 {
      WishlistItemsIndexesAt(); WishlistItemsIndexesWithoutAuto(); WishlistItemsIndexesDistinct();
    } else if i == 27 {
      CouponsIndexesAt(); CouponsIndexesWithoutAuto(); CouponsIndexesDistinct();
    } else if i == 28 {
      CouponUsageIndexesAt(); CouponUsageIndexesWithoutAuto(); CouponUsageIndexesDistinct();
    } else if i == 29 {
      AuditLogIndexesAt(); AuditLogIndexesWithoutAuto(); AuditLogIndexesDistinct();
    } else if i == 30 {
      EmailVerificationTokensIndexesAt(); EmailVerificationTokensIndexesWithoutAuto(); EmailVerificationTokensIndexesDistinct();
    } else {
      PasswordResetTokensIndexesAt(); PasswordResetTokensIndexesWithoutAuto(); PasswordResetTokensIndexesDistinct();
    }
  }

  /** The column list of the table at position `i` exists and repeats no name. */
  lemma ColumnListAt(i: nat)
    requires i < |ExpectedTables|
    ensures ExpectedTables[i] in ExpectedTableColumns
    ensures forall j, k :: 0 <= j < k < |ExpectedTableColumns[ExpectedTables[i]]| ==>
      ExpectedTableColumns[ExpectedTables[i]][j] != ExpectedTableColumns[ExpectedTables[i]][k]
  {
    ColumnExpectationsCoverTheTables();
    if i == 0 { CustomersColumnsAt(); CustomersColumnsDistinct(); }
    else if i == 1 { CustomerPreferencesColumnsAt(); CustomerPreferencesColumnsDistinct(); }
    else if i == 2 { CustomerAddressesColumnsAt(); CustomerAddressesColumnsDistinct(); }
    else if i == 3 { UserSessionsColumnsAt(); UserSessionsColumnsDistinct(); }
    else if i == 4 { CategoriesColumnsAt(); CategoriesColumnsDistinct(); }
    else if i == 5 { BrandsColumnsAt(); BrandsColumnsDistinct(); }
    else if i == 6 { SuppliersColumnsAt(); SuppliersColumnsDistinct(); }
    else if i == 7 { ProductsColumnsAt(); ProductsColumnsDistinct(); }
    else if i == 8 { ProductVariantsColumnsAt(); ProductVariantsColumnsDistinct(); }
    else if i == 9 { ProductAttributesColumnsAt(); ProductAttributesColumnsDistinct(); }
    else if i == 10 { ProductImagesColumnsAt(); ProductImagesColumnsDistinct(); }
    else if i == 11 { ProductReviewsColumnsAt(); ProductReviewsColumnsDistinct(); }
    else if i == 12 { ProductTagsColumnsAt(); ProductTagsColumnsDistinct(); }
    else if i == 13 { TagsColumnsAt(); TagsColumnsDistinct(); }
    else if i == 14 { InventoryLocationsColumnsAt(); InventoryLocationsColumnsDistinct(); }
    else if i == 15 { InventoryStockColumnsAt(); InventoryStockColumnsDistinct(); }
    else if i == 16 { InventoryLogColumnsAt(); InventoryLogColumnsDistinct(); }
    else if i == 17 { InventoryAlertsColumnsAt(); InventoryAlertsColumnsDistinct(); }
    else if i == 18 { OrdersColumnsAt(); OrdersColumnsDistinct(); }
    else if i == 19 { OrderItemsColumnsAt(); OrderItemsColumnsDistinct(); }
    else if i == 20 { OrderAddressesColumnsAt(); OrderAddressesColumnsDistinct(); }
    else if i == 21 { OrderPaymentsColumnsAt(); OrderPaymentsColumnsDistinct(); }
    else if i == 22 { OrderShipmentsColumnsAt(); OrderShipmentsColumnsDistinct(); }
    else if i == 23 { ShoppingCartsColumnsAt(); ShoppingCartsColumnsDistinct(); }
    else if i == 24 { ShoppingCartItemsColumnsAt(); ShoppingCartItemsColumnsDistinct(); }
    else if i == 25 { WishlistsColumnsAt(); WishlistsColumnsDistinct(); }
    else if i == 26 { WishlistItemsColumnsAt(); WishlistItemsColumnsDistinct(); }
    else if i == 27 { CouponsColumnsAt(); CouponsColumnsDistinct(); }
    else if i == 28 { CouponUsageColumnsAt(); CouponUsageColumnsDistinct(); }
    else if i == 29 { AuditLogColumnsAt(); AuditLogColumnsDistinct(); }
    else if i == 30 { EmailVerificationTokensColumnsAt(); EmailVerificationTokensColumnsDistinct(); }
    else { PasswordResetTokensColumnsAt(); PasswordResetTokensColumnsDistinct(); }
  }

  /** Every expected index name begins with `IDX_`. */
  lemma IndexNamesPrefixed()
    ensures forall t, n :: t in ExpectedTableIndexes && n in ExpectedTableIndexes[t] ==> StartsWith(n, "IDX_")
  {
    IndexExpectationsCoverTheTables();
    forall t, n | t in ExpectedTableIndexes && n in ExpectedTableIndexes[t]
      ensures StartsWith(n, "IDX_")
    {
      var i :| 0 <= i < |ExpectedTables| && ExpectedTables[i] == t;
      IndexListAt(i);
    }
  }

  /** Every expected index name is in upper case. */
  lemma IndexNamesUpper()
    ensures forall t, n :: t in ExpectedTableIndexes && n in ExpectedTableIndexes[t] ==> NoLower(n)
  {
    IndexExpectationsCoverTheTables();
    forall t, n | t in ExpectedTableIndexes && n in ExpectedTableIndexes[t]
      ensures NoLower(n)
    {
      var i :| 0 <= i < |ExpectedTables| && ExpectedTables[i] == t;
      IndexListAt(i);
    }
  }

  /** No expected index name contains `AUTO_`. */
  lemma IndexNamesWithoutAuto()
    ensures forall t, n :: t in ExpectedTableIndexes && n in ExpectedTableIndexes[t] ==> !Contains(n, "AUTO_")
  {
    IndexExpectationsCoverTheTables();
    forall t, n | t in ExpectedTableIndexes && n in ExpectedTableIndexes[t]
      ensures !Contains(n, "AUTO_")
    {
      var i :| 0 <= i < |ExpectedTables| && ExpectedTables[i] == t;
      IndexListCleanAt(i);
      if Contains(n, "AUTO_") {
        ContainsAutoChars(n);
      }
    }
  }

  /** No index list names the same index twice, even ignoring case. */
  lemma IndexListsDistinct()
    ensures forall t, i, j :: t in ExpectedTableIndexes && 0 <= i < j < |ExpectedTableIndexes[t]| ==>
      Upper(ExpectedTableIndexes[t][i]) != Upper(ExpectedTableIndexes[t][j])
  {
    IndexExpectationsCoverTheTables();
    forall t, i, j | t in ExpectedTableIndexes && 0 <= i < j < |ExpectedTableIndexes[t]|
      ensures Upper(ExpectedTableIndexes[t][i]) != Upper(ExpectedTableIndexes[t][j])
    {
      var k :| 0 <= k < |ExpectedTables| && ExpectedTables[k] == t;
      IndexListAt(k);
      IndexListCleanAt(k);
      var l := ExpectedTableIndexes[t];
      assert l[i] in l && l[j] in l;
      assert Upper(l[i]) == l[i] && Upper(l[j]) == l[j];
    }
  }

  /** No column list names the same column twice. */
  lemma ColumnListsDistinct()
    ensures forall t, i, j :: t in ExpectedTableColumns && 0 <= i < j < |ExpectedTableColumns[t]| ==>
      ExpectedTableColumns[t][i] != ExpectedTableColumns[t][j]
  {
    ColumnExpectationsCoverTheTables();
    forall t, i, j | t in ExpectedTableColumns && 0 <= i < j < |ExpectedTableColumns[t]|
      ensures ExpectedTableColumns[t][i] != ExpectedTableColumns[t][j]
    {
      var k :| 0 <= k < |ExpectedTables| && ExpectedTables[k] == t;
      ColumnListAt(k);
    }
  }
}
