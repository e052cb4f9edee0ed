# Tadalafarma shop core in Dafny

Tadalafarma is a pharmacy web shop with a staff back office, built on Spring and MongoDB. This project models its business core in Dafny and proves properties of that model:

- **Validators.** These are the CPF check digits (the Brazilian mod-11 rule), which the customer and staff services implement differently. They also cover the e-mail pattern, the name, gender, birth-date and address checks, the card-data checks and the product-field checks. Each validator keeps its own order of messages, and the first failure wins.
- **Services.** These are classes over in-memory repositories:
  - customer registration, which builds the billing and the first delivery address, plus data and password edits;
  - adding a delivery address and choosing the default one;
  - staff registration, editing and status toggling, and the backfill of missing sequential ids;
  - product creation and editing, stock and status changes;
  - the principal-image flag when an image is saved or deleted;
  - order creation, which snapshots the items, sums the subtotal, checks stock and numbers the order;
  - the order-status whitelist.
- **Storefront and checkout.** The session cart maps a product's sequential id to a quantity. The model covers the cart operations, the item count, the cart page's totals and the image fallback. It also covers the shipping fee by postal-code prefix, and checkout as a session state machine: log in, choose the address, choose the payment, see the summary, finish.
- **Back-office controllers.** These are the session and role gates (ADMINISTRADOR and ESTOQUISTA), the user-menu dispatch, the "N" cancel paths, the product update dispatched by group, and the choice of principal flag for each upload.

**How the model is built.**
- **Documents** (users, customers, addresses, orders, products, images) are datatypes. Every repository find returns a fresh copy, so a document is a value.
- **Repositories** are classes, each holding one sequence of documents. `save` replaces the document with the same identifier, or appends a new one.
- **Services and the storefront and customer controllers** are classes whose methods modify only the repository they save to, or the session attributes they set.
- **Back-office controllers** (`BackofficeController`, `ProdutoController`) are classes too. Their handlers that save are methods that modify the repositories their services save to; the gates, the menu dispatch and the pages that only read are functions of the request, the session and the stores.
- **Loops in the source** are `while` loops proved against specification functions:
  - the CPF sums, the word loop of the name check and the id backfill;
  - the flag clearing and the order's item loop;
  - the cart subtotals and the cart lines.
- **Java values.** `null` is `None`. `BigDecimal` money is an exact `real`. An exception that escapes a handler is the `Throws` case of `Checked`. A 64-bit `Long` is bounded explicitly where it is parsed. Everywhere else `int` and `long` arithmetic is unbounded: the cart quantities, the item count and the `max + 1` numbering do not wrap as Java's do (see "## Left out").
- **Iteration order.** Loops over a `HashMap` take the next entry in any order. Every property about such a loop holds for every order.
- **Oracles.** Password hashing, the ViaCEP postal lookup and date parsing are parameters. So are the clock, the fresh identifiers and the random file names.

## Model

| member | source | states |
|---|---|---|
| Text.DigitVal | src/main/java/com/tadalafarma/Tadalafarma/service/UsuarioService.java:44 | the numeric value of a digit is below ten |
| Text.DigitChar | src/main/java/com/tadalafarma/Tadalafarma/service/UsuarioService.java:44 | the character printed for a value below ten is a digit whose value is that value |
| Text.StripNonDigits | src/main/java/com/tadalafarma/Tadalafarma/service/UsuarioService.java:29 | removing the non-digits leaves only digits and never lengthens the string |
| Text.StripKeepsDigits | src/main/java/com/tadalafarma/Tadalafarma/service/UsuarioService.java:29 | a string of digits only is left unchanged |
| Text.StripDropsNonDigit | src/main/java/com/tadalafarma/Tadalafarma/service/ClienteService.java:35 | a string holding a non-digit gets strictly shorter |
| Text.StripNonDigitsConcat | src/main/java/com/tadalafarma/Tadalafarma/service/ClienteService.java:35 | removing the non-digits distributes over concatenation |
| Text.StripSkipsNonDigit | src/main/java/com/tadalafarma/Tadalafarma/service/ClienteService.java:35 | a non-digit between two pieces disappears |
| Text.Trim | src/main/java/com/tadalafarma/Tadalafarma/service/UsuarioService.java:220 | the trimmed string is empty or starts and ends with a character above U+0020 |
| Text.TrimStartOfBlank | src/main/java/com/tadalafarma/Tadalafarma/service/UsuarioService.java:187 | a string is blank exactly when trimming its start leaves nothing |
| Text.BlankIffTrimEmpty | src/main/java/com/tadalafarma/Tadalafarma/service/UsuarioService.java:187 | `trim().isEmpty()` holds exactly when every character is at most U+0020 |
| Text.SkipSpaces | src/main/java/com/tadalafarma/Tadalafarma/service/ClienteService.java:83 | skipping white space never lengthens the string and stops at a non-space |
| Text.WordLength | src/main/java/com/tadalafarma/Tadalafarma/service/ClienteService.java:83 | the word at the head of a string is a non-empty run of non-space characters when the string starts with one |
| Text.Words | src/main/java/com/tadalafarma/Tadalafarma/service/ClienteService.java:83 | splitting on runs of white space yields only non-empty words |
| Text.ToLower | src/main/java/com/tadalafarma/Tadalafarma/service/ClienteService.java:124 | lower-casing keeps the length and maps each character on its own |
| Text.ContainsPiece | src/main/java/com/tadalafarma/Tadalafarma/controller/ClienteController.java:621 | a string contains every piece it was concatenated from |
| Text.NotContainsMissingChar | src/main/java/com/tadalafarma/Tadalafarma/controller/ClienteController.java:621 | a string lacking one character of `sub` does not contain `sub` |
| Text.NotContainsOnlyAtEnd | src/main/java/com/tadalafarma/Tadalafarma/controller/ProdutoController.java:173 | when `c` occurs only as the last character, no longer piece starting with `c` occurs |
| Text.ContainsSelf | src/main/java/com/tadalafarma/Tadalafarma/controller/ClienteController.java:621 | a string contains itself |
| Text.ContainsInLeft | src/main/java/com/tadalafarma/Tadalafarma/controller/ClienteController.java:621 | containment survives appending on the right |
| Text.ContainsInRight | src/main/java/com/tadalafarma/Tadalafarma/controller/ClienteController.java:621 | containment survives prepending on the left |
| Text.NatToString | src/main/java/com/tadalafarma/Tadalafarma/controller/BackofficeController.java:86 | a natural number prints as a non-empty string of digits |
| Text.ParseLong | src/main/java/com/tadalafarma/Tadalafarma/controller/BackofficeController.java:85 | a parsed value always lies within the 64-bit range |
| Text.NatToStringValue | src/main/java/com/tadalafarma/Tadalafarma/controller/BackofficeController.java:86 | the printed digits of `n` read back as `n` |
| Text.ParseLongOfLongToString | src/main/java/com/tadalafarma/Tadalafarma/controller/BackofficeController.java:85-86 | printing a 64-bit value and parsing it back gives the value again |
| Cpf.DigitoVerificador | src/main/java/com/tadalafarma/Tadalafarma/service/UsuarioService.java:46-49 | a check digit is below ten, and it is 0 exactly when the sum leaves a remainder of 0 or 1 mod 11 |
| Cpf.CalcularDigito | src/main/java/com/tadalafarma/Tadalafarma/service/UsuarioService.java:42-49 | the accumulation loop yields the check digit of the weighted sum of the first `n` digits, weights `n+1` down to 2 |
| Cpf.ConferirDigitos | src/main/java/com/tadalafarma/Tadalafarma/service/UsuarioService.java:36-63 | on eleven digits, the repeated-digit test and both loops accept exactly the valid CPFs |
| Cpf.Formatado | src/main/java/com/tadalafarma/Tadalafarma/service/UsuarioService.java:28-29 | the written form `ddd.ddd.ddd-dd` has fourteen characters |
| Cpf.FormatadoSemPontuacao | src/main/java/com/tadalafarma/Tadalafarma/service/UsuarioService.java:29 | removing the punctuation of the written form gives the eleven digits back |
| Cpf.SomaPrefixo | src/main/java/com/tadalafarma/Tadalafarma/service/UsuarioService.java:43-45 | the weighted sum reads only the first `n` digits |
| Cpf.ValidoExemplo | src/main/java/com/tadalafarma/Tadalafarma/service/UsuarioService.java:41-63 | "11144477735" is a valid CPF |
| Cpf.InvalidoExemplo | src/main/java/com/tadalafarma/Tadalafarma/service/UsuarioService.java:61-63 | "12345678901" is refused for its wrong second check digit |
| Cpf.RepetidoPassaAritmetica | src/main/java/com/tadalafarma/Tadalafarma/service/UsuarioService.java:36-39 | a repeated digit passes both check-digit tests, and it is refused only by the explicit repeated-digit test |
| Cpf.DigitoDeRepetido | src/main/java/com/tadalafarma/Tadalafarma/service/UsuarioService.java:46-59 | the sums 54·d and 65·d both give check digit d |
| Cpf.SomaRepetida | src/main/java/com/tadalafarma/Tadalafarma/service/UsuarioService.java:43-55 | the weighted sum of a repeated digit is that digit times the sum of the weights |
| Email.ArrobaNaDivisao | src/main/java/com/tadalafarma/Tadalafarma/service/UsuarioService.java:71-73 | an `@` in a string split at an `@` into local part and domain is that `@` |
| Email.UmaArroba | src/main/java/com/tadalafarma/Tadalafarma/service/UsuarioService.java:71-73 | an address that matches the pattern has exactly one `@` |
| Email.TerminaComSufixo | src/main/java/com/tadalafarma/Tadalafarma/service/UsuarioService.java:67-74 | a valid address ends with a dot and at least two letters |
| Email.ExemploValido | src/main/java/com/tadalafarma/Tadalafarma/service/UsuarioService.java:67-74 | "joao@email.com" is valid |
| Email.ExemploInvalido | src/main/java/com/tadalafarma/Tadalafarma/service/UsuarioService.java:67-74 | "email-invalido" is refused |
| Sequencial.Maior | src/main/java/com/tadalafarma/Tadalafarma/service/ProdutoService.java:273-280 | the top of the descending sort is missing exactly when no document has a number, and is otherwise a number present that no other number exceeds |
| Sequencial.Proximo | src/main/java/com/tadalafarma/Tadalafarma/service/UsuarioService.java:161-167 | the next number exceeds every number present, is 1 when there is none, and is otherwise the largest plus one |
| Somas.Escolha | src/main/java/com/tadalafarma/Tadalafarma/controller/LojaController.java:106 | the entry taken next is a key of the cart |
| Somas.SomaQuantidadesSem | src/main/java/com/tadalafarma/Tadalafarma/controller/LojaController.java:221-224 | the total quantity is any entry's quantity plus the total of the rest, so order does not matter |
| Somas.SomaValoresSem | src/main/java/com/tadalafarma/Tadalafarma/controller/LojaController.java:106-134 | a sum over the cart is any entry's term plus the sum over the rest, so the iteration order does not matter |
| Somas.SomaQuantidadesAtualiza | src/main/java/com/tadalafarma/Tadalafarma/controller/LojaController.java:90 | changing one quantity changes the total by the difference |
| Somas.SomaQuantidadesRemove | src/main/java/com/tadalafarma/Tadalafarma/controller/LojaController.java:195 | removing an entry takes its quantity off the total |
| Somas.SomaQuantidadesMinima | src/main/java/com/tadalafarma/Tadalafarma/controller/LojaController.java:221-224 | with every quantity at least 1 the total is at least the number of entries |
| Enderecos.Vazio | src/main/java/com/tadalafarma/Tadalafarma/model/Endereco.java:20-22 | a new empty address has a fresh id, every field null and is not the default |
| Enderecos.Novo | src/main/java/com/tadalafarma/Tadalafarma/model/Endereco.java:25-36 | a new address has a fresh id, exactly the given fields and is not the default |
| Enderecos.Copia | src/main/java/com/tadalafarma/Tadalafarma/model/Endereco.java:25-36 | a copy keeps every postal field under a new id and is not the default |
| Enderecos.CompletoContemCampos | src/main/java/com/tadalafarma/Tadalafarma/model/Endereco.java:112-125 | the display string always contains the street, district, city, state and postal code as written (null as "null") |
| Enderecos.OpcionaisOmitidos | src/main/java/com/tadalafarma/Tadalafarma/model/Endereco.java:115-120 | a null or blank number or complement leaves no trace in the display string |
| Enderecos.NumeroAparece | src/main/java/com/tadalafarma/Tadalafarma/model/Endereco.java:115-117 | a filled-in number appears in the display string after ", " |
| Clientes.Vazio | src/main/java/com/tadalafarma/Tadalafarma/model/Cliente.java:28-32 | a customer built without arguments is active, has an empty delivery list and no other data |
| Clientes.Novo | src/main/java/com/tadalafarma/Tadalafarma/model/Cliente.java:35-45 | a new customer is active, has an empty delivery list and exactly the given fields |
| Clientes.AdicionarEnderecoEntrega | src/main/java/com/tadalafarma/Tadalafarma/model/Cliente.java:129-134 | adding an address creates a null list, keeps the earlier addresses in order, puts the new one last and changes nothing else |
| Clientes.PrimeiroPadrao | src/main/java/com/tadalafarma/Tadalafarma/model/Cliente.java:140-142 | finds the first address flagged default, or reports that none is |
| Clientes.EnderecoPadraoEntrega | src/main/java/com/tadalafarma/Tadalafarma/model/Cliente.java:136-144 | null exactly for a null or empty list; otherwise an address of the list, the first default one when there is one, else the first address |
| Clientes.MarcarPadrao | src/main/java/com/tadalafarma/Tadalafarma/model/Cliente.java:148-150 | each address is flagged default exactly when its id is the one chosen; nothing else changes |
| Clientes.DefinirEnderecoPadrao | src/main/java/com/tadalafarma/Tadalafarma/model/Cliente.java:146-152 | the loop leaves a null list null and otherwise stores `MarcarPadrao` of the list, changing nothing else |
| Clientes.MarcarPadraoUnico | src/main/java/com/tadalafarma/Tadalafarma/model/Cliente.java:146-152 | with unique ids, marking leaves at most one default, one exactly when the chosen id is in the list, and it is the address with that id |
| Pedidos.Novo | src/main/java/com/tadalafarma/Tadalafarma/model/Pedido.java:23-47 | a new order has an empty item list, no status, number or totals, and both timestamps at the current time |
| Pedidos.AdicionarItem | src/main/java/com/tadalafarma/Tadalafarma/model/Pedido.java:156-161 | adding an item creates a null list, keeps the earlier items in order, puts the new one last and changes nothing else |
| Pedidos.SetStatus | src/main/java/com/tadalafarma/Tadalafarma/model/Pedido.java:134-137 | setting the status stores it verbatim, refreshes the update time and changes nothing else |
| Pedidos.StatusTexto | src/main/java/com/tadalafarma/Tadalafarma/model/Pedido.java:163-182 | the `switch` throws exactly on a null status; each of the seven codes gets its label, and any other string is shown unchanged |
| Pedidos.RotulosDistintos | src/main/java/com/tadalafarma/Tadalafarma/model/Pedido.java:163-182 | the seven labels are distinct and none of them is itself a status code |
| Pedidos.NumeroCartaoMascarado | src/main/java/com/tadalafarma/Tadalafarma/model/Pedido.java:247-252 | a null or short number masks to "****"; any other masks to three starred groups and its last four characters |
| Pedidos.MascaraSoDependeDoFinal | src/main/java/com/tadalafarma/Tadalafarma/model/Pedido.java:247-252 | numbers with the same last four characters mask alike, so the mask reveals nothing else |
| Produtos.Novo | src/main/java/com/tadalafarma/Tadalafarma/model/Produto.java:36-50 | a new product is active, has no sequential id yet, both timestamps now and exactly the given fields |
| Produtos.NovaImagem | src/main/java/com/tadalafarma/Tadalafarma/model/ProdutoImagem.java:27-39 | a new image is not the principal one, is stamped now and keeps the given product, file names and path |
| Sessoes.Sessao.RemoverCheckout | src/main/java/com/tadalafarma/Tadalafarma/controller/ClienteController.java:641-646 | closing a checkout removes the cart, address, payment, card and shipping attributes |
| ViaCep.BuscarEnderecoPorCep | src/main/java/com/tadalafarma/Tadalafarma/service/ViaCepService.java:16-48 | a null code or one whose digits are not eight gives null without a lookup; otherwise the answer gives an address with a fresh id, not the default, the eight digits as code and the street, district, city and state of the answer |
| ViaCep.FormatacaoIndiferente | src/main/java/com/tadalafarma/Tadalafarma/service/ViaCepService.java:19 | punctuation in the postal code makes no difference to the lookup |
| Repositorios.Primeiro | src/main/java/com/tadalafarma/Tadalafarma/repository/UsuarioRepository.java:12 | the position found is the first element that matches, and none is found exactly when nothing matches |
| Repositorios.Salvar | src/main/java/com/tadalafarma/Tadalafarma/service/UsuarioService.java:170-172 | saving a new identifier appends the document; saving a known one replaces it in place; identifiers stay distinct |
| Repositorios.PosicaoDoId | src/main/java/com/tadalafarma/Tadalafarma/service/UsuarioService.java:170-172 | the position found is the first document with that identifier, and none is found exactly when no document has it |
| Repositorios.SalvarNoLugar | src/main/java/com/tadalafarma/Tadalafarma/service/UsuarioService.java:170-172 | in a store without duplicate identifiers, saving a document replaces the one with its identifier where it stands |
| Repositorios.SalvarContem | src/main/java/com/tadalafarma/Tadalafarma/service/UsuarioService.java:170-172 | the saved document is in the store afterwards |
| Repositorios.Remover | src/main/java/com/tadalafarma/Tadalafarma/service/ProdutoService.java:263 | deleting by identifier removes exactly the documents with that identifier and never adds one |
| Repositorios.ClienteRepository.FindById | src/main/java/com/tadalafarma/Tadalafarma/service/ClienteService.java:297-299 | a customer is found exactly when one has that identifier, and it is one of the stored customers |
| Repositorios.ClienteRepository.FindByEmail | src/main/java/com/tadalafarma/Tadalafarma/repository/ClienteRepository.java:12 | a customer is found exactly when one has that e-mail, and it is a stored customer with that e-mail |
| Repositorios.ClienteRepository.Save | src/main/java/com/tadalafarma/Tadalafarma/repository/ClienteRepository.java:10 | the store becomes `Salvar` of the old store, and distinct identifiers stay distinct |
| Repositorios.UsuarioRepository.FindBySequencialId | src/main/java/com/tadalafarma/Tadalafarma/repository/UsuarioRepository.java:14 | a user is found exactly when one has that sequential id, and it is a stored user with it |
| Repositorios.UsuarioRepository.FindByEmail | src/main/java/com/tadalafarma/Tadalafarma/repository/UsuarioRepository.java:12 | a user is found exactly when one has that e-mail, and it is a stored user with it |
| Repositorios.UsuarioRepository.SequenciaisIds | src/main/java/com/tadalafarma/Tadalafarma/repository/UsuarioRepository.java:21 | lists the sequential id of every stored user, in store order |
| Repositorios.UsuarioRepository.Save | src/main/java/com/tadalafarma/Tadalafarma/service/UsuarioService.java:170-172 | the store becomes `Salvar` of the old store, and distinct identifiers stay distinct |
| Repositorios.PedidoRepository.FindById | src/main/java/com/tadalafarma/Tadalafarma/service/PedidoService.java:168-170 | an order is found exactly when one has that identifier, and it is a stored order |
| Repositorios.PedidoRepository.FindByNumeroPedido | src/main/java/com/tadalafarma/Tadalafarma/repository/PedidoRepository.java:13 | an order is found exactly when one has that number, and it is a stored order with it |
| Repositorios.PedidoRepository.MaisRecenteDoCliente | src/main/java/com/tadalafarma/Tadalafarma/repository/PedidoRepository.java:15 | the head of the customer's orders newest first: none exactly when the customer has no order, otherwise one of theirs created no earlier than any other |
| Repositorios.PedidoRepository.FindAllByOrderByDataCriacaoDesc | src/main/java/com/tadalafarma/Tadalafarma/service/PedidoService.java:173-174 | every stored order, each as often as it is stored, ordered from the newest to the oldest creation instant |
| Repositorios.PedidoRepository.Numeros | src/main/java/com/tadalafarma/Tadalafarma/repository/PedidoRepository.java:18 | lists the number of every stored order, in store order |
| Repositorios.PedidoRepository.Save | src/main/java/com/tadalafarma/Tadalafarma/service/PedidoService.java:140 | the store becomes `Salvar` of the old store, and distinct identifiers stay distinct |
| Repositorios.ProdutoRepository.FindBySequencialId | src/main/java/com/tadalafarma/Tadalafarma/repository/ProdutoRepository.java:17 | a product is found exactly when one has that sequential id, and it is a stored product with it |
| Repositorios.ProdutoRepository.SequenciaisIds | src/main/java/com/tadalafarma/Tadalafarma/repository/ProdutoRepository.java:37-38 | lists the sequential id of every stored product, in store order |
| Repositorios.ProdutoRepository.Save | src/main/java/com/tadalafarma/Tadalafarma/service/ProdutoService.java:70 | the store becomes `Salvar` of the old store, and distinct identifiers stay distinct |
| Repositorios.ProdutoImagemRepository.FindById | src/main/java/com/tadalafarma/Tadalafarma/service/ProdutoService.java:248 | an image is found exactly when one has that identifier, and it is a stored image |
| Repositorios.ProdutoImagemRepository.FindByProdutoSequencialId | src/main/java/com/tadalafarma/Tadalafarma/repository/ProdutoImagemRepository.java:14 | answers exactly the stored images of that product |
| Repositorios.ProdutoImagemRepository.FindPrincipal | src/main/java/com/tadalafarma/Tadalafarma/repository/ProdutoImagemRepository.java:17 | an image is found exactly when the product has one flagged principal, and it is such an image |
| Repositorios.ProdutoImagemRepository.Save | src/main/java/com/tadalafarma/Tadalafarma/service/ProdutoService.java:223 | the store becomes `Salvar` of the old store, and distinct identifiers stay distinct |
| Repositorios.ProdutoImagemRepository.DeleteById | src/main/java/com/tadalafarma/Tadalafarma/service/ProdutoService.java:263 | the store becomes `Remover` of the old store, and distinct identifiers stay distinct |
| Repositorios.ProdutoPorSequencial | src/main/java/com/tadalafarma/Tadalafarma/repository/ProdutoRepository.java:17 | the product found has the sequential id asked for, and one is found exactly when some product has it |
| Repositorios.DoProduto | src/main/java/com/tadalafarma/Tadalafarma/repository/ProdutoImagemRepository.java:14 | keeps exactly the images of the product and never adds one |
| Repositorios.MaisRecente | src/main/java/com/tadalafarma/Tadalafarma/repository/PedidoRepository.java:15 | none exactly when the customer has no order, otherwise one of theirs created no earlier than any other |
| Repositorios.InserirPorData | src/main/java/com/tadalafarma/Tadalafarma/service/PedidoService.java:173-174 | inserting an order into a newest-first list keeps it newest first and adds exactly that order |
| Repositorios.PorDataDesc | src/main/java/com/tadalafarma/Tadalafarma/service/PedidoService.java:173-174 | the result is newest first and a permutation of its input |
| Repositorios.ClienteRepository.EncontraOUnico | src/main/java/com/tadalafarma/Tadalafarma/service/ClienteService.java:297-299 | in a store without duplicate identifiers, `findById` answers exactly the stored customer with that identifier |
| Usuarios.GrupoValueOf | src/main/java/com/tadalafarma/Tadalafarma/model/Usuario.java:107-114 | a stored name reads back as group `g` exactly when it is the name of `g`; any other name gives no group, where `valueOf` throws |
| Usuarios.NomeOpcional | src/main/java/com/tadalafarma/Tadalafarma/model/Usuario.java:116-118 | a group is stored as its name, and a null group as null |
| Usuarios.Novo | src/main/java/com/tadalafarma/Tadalafarma/model/Usuario.java:41-48 | a new user is active, has no sequential id yet, stores the group by name and keeps the given name, CPF, e-mail and password |
| Usuarios.GetGrupo | src/main/java/com/tadalafarma/Tadalafarma/model/Usuario.java:107-114 | the group is present exactly when the stored name is non-null and names a constant, and then the stored name is that constant's name |
| Usuarios.SetGrupo | src/main/java/com/tadalafarma/Tadalafarma/model/Usuario.java:116-118 | only the stored group name changes, to the name of the new group or null |
| Usuarios.SetGrupoString | src/main/java/com/tadalafarma/Tadalafarma/model/Usuario.java:126-128 | only the stored group string changes, to the raw value given |
| Usuarios.StatusTexto | src/main/java/com/tadalafarma/Tadalafarma/model/Usuario.java:130-132 | "Ativo" exactly for an active user, "Inativo" exactly for an inactive one |
| Usuarios.GrupoIdaEVolta | src/main/java/com/tadalafarma/Tadalafarma/model/Usuario.java:107-118 | reading back a group just stored gives that group, null included |
| Usuarios.GrupoVoltaEIda | src/main/java/com/tadalafarma/Tadalafarma/model/Usuario.java:107-118 | storing the group just read back leaves a user whose stored name is readable unchanged |
| Usuarios.GrupoDesconhecido | src/main/java/com/tadalafarma/Tadalafarma/model/Usuario.java:107-128 | a raw stored string that names no constant reads back as a null group |
| UsuarioServico.ValidarCpf | src/main/java/com/tadalafarma/Tadalafarma/service/UsuarioService.java:23-64 | the strip, length test, repeated-digit test and two accumulation loops answer exactly `CpfUsuario`: after dropping non-digits, eleven digits, not all equal, whose two check digits agree |
| UsuarioServico.CpfFormatacaoIndiferente | src/main/java/com/tadalafarma/Tadalafarma/service/UsuarioService.java:28-29 | punctuation never changes the staff CPF verdict: a CPF and its digits alone are judged alike |
| UsuarioServico.CpfValidadoresConcordam | src/main/java/com/tadalafarma/Tadalafarma/service/UsuarioService.java:23-64 | on a bare eleven-digit CPF the staff and customer validators agree, and every CPF the customer validator accepts the staff validator accepts too |
| UsuarioServico.CpfFormatado | src/main/java/com/tadalafarma/Tadalafarma/service/UsuarioService.java:28-34 | a CPF written `ddd.ddd.ddd-dd` is judged by its digits alone here, while the customer validator refuses it whatever the digits |
| UsuarioServico.CpfFormatadoAceito | src/main/java/com/tadalafarma/Tadalafarma/service/UsuarioService.java:28-34 | the formatted CPF "111.444.777-35" is accepted for staff and refused for customers |
| UsuarioServico.Numerados | src/main/java/com/tadalafarma/Tadalafarma/service/UsuarioService.java:128-135 | the listing backfill keeps the length of the user list |
| UsuarioServico.NumeradosPreservam | src/main/java/com/tadalafarma/Tadalafarma/service/UsuarioService.java:128-135 | after the backfill every user has a sequential id, users that had one are unchanged, and nothing but the id changes for the others |
| UsuarioServico.NumeradoSemId | src/main/java/com/tadalafarma/Tadalafarma/service/UsuarioService.java:128-135 | a user without an id gets the largest id plus one more than the number of id-less users before it |
| UsuarioServico.NumeradosCrescentes | src/main/java/com/tadalafarma/Tadalafarma/service/UsuarioService.java:128-135 | the ids handed out lie above the starting maximum, increase in list order and end at maximum + number of id-less users |
| UsuarioServico.NumeradosDistintos | src/main/java/com/tadalafarma/Tadalafarma/service/UsuarioService.java:120-135 | when the ids present are distinct and none exceeds the start, all ids are distinct after the backfill |
| UsuarioServico.ListagemSemDuplicatas | src/main/java/com/tadalafarma/Tadalafarma/service/UsuarioService.java:117-142 | starting from the largest id present, the listing never creates a duplicate sequential id |
| UsuarioServico.NumeradosIdempotente | src/main/java/com/tadalafarma/Tadalafarma/service/UsuarioService.java:117-142 | listing a second time changes nothing more |
| UsuarioServico.MaiorSequencial | src/main/java/com/tadalafarma/Tadalafarma/service/UsuarioService.java:120-124 | the counter starts at the largest sequential id present, or 0 when no user has one |
| UsuarioServico.Cadastro | src/main/java/com/tadalafarma/Tadalafarma/service/UsuarioService.java:185-237 | a user is saved exactly when the answer is the success message, and it is active, numbered with the next id, has the trimmed name, the given CPF, e-mail and group and the hash of the password |
| UsuarioServico.CadastroPrimeiraFalha | src/main/java/com/tadalafarma/Tadalafarma/service/UsuarioService.java:185-217 | registration answers the message of check `k` exactly when checks before `k` pass and check `k` fails, and saves exactly when all eight checks pass |
| UsuarioServico.Alterado | src/main/java/com/tadalafarma/Tadalafarma/service/UsuarioService.java:266-270 | an edit sets the trimmed name, the CPF and the group and changes nothing else |
| UsuarioServico.StatusAlternado | src/main/java/com/tadalafarma/Tadalafarma/service/UsuarioService.java:304-305 | the toggle flips the active flag and changes nothing else |
| UsuarioServico.StatusAlternadoDuasVezes | src/main/java/com/tadalafarma/Tadalafarma/service/UsuarioService.java:298-309 | toggling twice gives the user back |
| UsuarioServico.UsuarioService.Autenticar | src/main/java/com/tadalafarma/Tadalafarma/service/UsuarioService.java:87-95 | a login succeeds only for the user the e-mail lookup finds, when active and the password matches its stored hash, and then that user always logs in; an unknown e-mail never logs in |
| UsuarioServico.UsuarioService.ListarTodos | src/main/java/com/tadalafarma/Tadalafarma/service/UsuarioService.java:117-142 | the loop saves and answers exactly the backfilled list `Numerados` of the stored users, starting from the largest id present |
| UsuarioServico.UsuarioService.ProximoSequencialId | src/main/java/com/tadalafarma/Tadalafarma/service/UsuarioService.java:161-167 | the next sequential id exceeds every id present, and is 1 when no user has one |
| UsuarioServico.UsuarioService.CadastrarUsuario | src/main/java/com/tadalafarma/Tadalafarma/service/UsuarioService.java:185-237 | answers the message of `Cadastro` and saves its user, or leaves the store unchanged when a check fails |
| UsuarioServico.UsuarioService.AlterarUsuario | src/main/java/com/tadalafarma/Tadalafarma/service/UsuarioService.java:240-273 | checks existence, name, CPF, a CPF held by someone else only when it differs from the user's own, and group, in that order; only success saves, and it saves `Alterado` of the stored user |
| UsuarioServico.UsuarioService.AlterarSenha | src/main/java/com/tadalafarma/Tadalafarma/service/UsuarioService.java:276-295 | succeeds exactly for an existing user with a non-blank, confirmed new password, saving the hash of it; otherwise nothing changes |
| UsuarioServico.UsuarioService.AlterarStatus | src/main/java/com/tadalafarma/Tadalafarma/service/UsuarioService.java:298-309 | an unknown id changes nothing; otherwise the flag is flipped and saved and the message reports the new state |
| BackofficeControle.IsAdminPorNome | src/main/java/com/tadalafarma/Tadalafarma/controller/BackofficeController.java:57 | a staff user counts as an administrator exactly when the stored group name is "ADMINISTRADOR" |
| BackofficeControle.PortaoAdmin | src/main/java/com/tadalafarma/Tadalafarma/controller/BackofficeController.java:70-77 | a request passes the user-management gate exactly when someone is logged in and is an administrator; an anonymous session goes to the login page, any other group to the denial page |
| BackofficeControle.EstoquistaSoPedidos | src/main/java/com/tadalafarma/Tadalafarma/controller/BackofficeController.java:348-356 | a stock clerk is denied user management on every gate but let into the order pages |
| BackofficeControle.PortaoPedidos | src/main/java/com/tadalafarma/Tadalafarma/controller/BackofficeController.java:352-355 | the order pages admit any logged-in staff user and send an anonymous session to the back-office login |
| BackofficeControle.Inicio | src/main/java/com/tadalafarma/Tadalafarma/controller/BackofficeController.java:36-46 | the home page is shown exactly to a logged-in user, an anonymous session goes to the login |
| BackofficeControle.RotaAcao | src/main/java/com/tadalafarma/Tadalafarma/controller/BackofficeController.java:79-90 | "0" and only "0" leads back to the back office, exactly the inputs that upper-case to "I" lead to registration, a parsable 64-bit number leads to that user's options and every other input to the "ID deve ser um número válido" error |
| BackofficeControle.AcaoNumerica | src/main/java/com/tadalafarma/Tadalafarma/controller/BackofficeController.java:84-86 | every non-zero 64-bit user number typed in canonical form leads to that user's options page |
| BackofficeControle.RotaOpcao | src/main/java/com/tadalafarma/Tadalafarma/controller/BackofficeController.java:175-186 | option 1 leads to the user's edit form, 2 to the password form, 3 to the status form; option 4, and only option 4, returns to the user list; any other number goes back to the options page with "Opção inválida" |
| BackofficeControle.OpcoesDistintas | src/main/java/com/tadalafarma/Tadalafarma/controller/BackofficeController.java:175-186 | the four options lead to four different pages, none of them the invalid-option page |
| BackofficeControle.RecarregarUsuario | src/main/java/com/tadalafarma/Tadalafarma/controller/BackofficeController.java:235-238 | redrawing a failed edit throws exactly when the user is missing (`Optional.get` on an empty result), and otherwise shows the form with the error |
| BackofficeControle.RecarregarUsuarioCorrigido | src/main/java/com/tadalafarma/Tadalafarma/controller/BackofficeController.java:156-158 | the corrected reload never throws: a missing user gets the "Usuário não encontrado" redirect the display pages use, and an existing one gets the same page as before |
| BackofficeControle.AcaoStatus | src/main/java/com/tadalafarma/Tadalafarma/controller/BackofficeController.java:318-319 | the status page offers "Desativar" exactly for an active user and "Ativar" exactly for an inactive one |
| BackofficeControle.BackofficeController.ListarUsuarios | src/main/java/com/tadalafarma/Tadalafarma/controller/BackofficeController.java:51-65 | a refused session gets the gate's answer and changes nothing; an administrator gets the list view with the backfilled user list `Numerados` that is now stored |
| BackofficeControle.BackofficeController.ProcessarAcaoUsuario | src/main/java/com/tadalafarma/Tadalafarma/controller/BackofficeController.java:69-91 | the gate answers first, then the menu choice is dispatched by `RotaAcao` |
| BackofficeControle.BackofficeController.PaginaCadastro | src/main/java/com/tadalafarma/Tadalafarma/controller/BackofficeController.java:95-106 | the registration form is shown exactly to an administrator; an anonymous session goes to the login |
| BackofficeControle.BackofficeController.ProcessarCadastro | src/main/java/com/tadalafarma/Tadalafarma/controller/BackofficeController.java:109-141 | the gate answers first and changes nothing; a group name that is no constant is refused before the service runs; otherwise success redirects with the message and any failure redraws the form with the service's message; the user store becomes the service's: the new user saved on success, unchanged on any refusal |
| BackofficeControle.BackofficeController.PaginaDeUsuario | src/main/java/com/tadalafarma/Tadalafarma/controller/BackofficeController.java:145-162 | the gate with /login answers first; then an existing user's page is shown and a missing one redirects with "Usuário não encontrado" |
| BackofficeControle.BackofficeController.ProcessarOpcaoUsuario | src/main/java/com/tadalafarma/Tadalafarma/controller/BackofficeController.java:165-187 | the gate answers first, then the option is dispatched by `RotaOpcao` |
| BackofficeControle.BackofficeController.ProcessarAlteracao | src/main/java/com/tadalafarma/Tadalafarma/controller/BackofficeController.java:211-246 | the gate, the "N" cancel and an unknown group change nothing; the handler throws exactly when it gets past the cancel and the user does not exist; it redirects with success exactly when the service's checks pass, and only then saves `Alterado` |
| BackofficeControle.BackofficeController.ProcessarAlteracaoSenha | src/main/java/com/tadalafarma/Tadalafarma/controller/BackofficeController.java:270-297 | the gate and the "N" cancel change nothing; the handler throws exactly when the user does not exist past the cancel; it redirects with success exactly for a non-blank, confirmed password, and then the user is saved with the new password's hash; on every other answer the user store is unchanged |
| BackofficeControle.BackofficeController.ProcessarAlteracaoStatus | src/main/java/com/tadalafarma/Tadalafarma/controller/BackofficeController.java:325-343 | the gate and the "N" cancel change nothing; otherwise the service's message is sent with "sucesso=" whatever it says, "Usuário não encontrado" included, and an existing user's flag is flipped |
| BackofficeControle.BackofficeController.ListarPedidos | src/main/java/com/tadalafarma/Tadalafarma/controller/BackofficeController.java:349-369 | any logged-in staff user sees every stored order, each once, the newest first; an anonymous session goes to the login and sees none |
| BackofficeControle.BackofficeController.EditarPedido | src/main/java/com/tadalafarma/Tadalafarma/controller/BackofficeController.java:373-389 | a logged-in user sees the edit page exactly when the order exists, and a missing order redirects with "Pedido não encontrado" |
| BackofficeControle.BackofficeController.ProcessarEdicaoPedido | src/main/java/com/tadalafarma/Tadalafarma/controller/BackofficeController.java:392-414 | an anonymous session and a missing order change nothing; an invalid status redraws the page with "Status inválido"; a valid one is saved on the order and reported as success |
| ProdutoServico.ValidarProduto | src/main/java/com/tadalafarma/Tadalafarma/service/ProdutoService.java:41-61 | a refusal is one of the seven field messages; an accepted form has all five fields present |
| ProdutoServico.ProdutoPrimeiraFalha | src/main/java/com/tadalafarma/Tadalafarma/service/ProdutoService.java:41-61 | the answer is the message of check `k` (name present and non-blank, name at most 200 characters, rating in (0, 5], description present and non-blank, description at most 2000 characters, price positive, stock non-negative) exactly when the checks before `k` pass and check `k` fails, and null exactly when all seven pass |
| ProdutoServico.AvaliacaoAbaixoDeUm | src/main/java/com/tadalafarma/Tadalafarma/service/ProdutoService.java:47-49 | the rating check accepts 0.5 although its message says "between 1 and 5", and refuses 0 and 5.5 |
| ProdutoServico.ProximoSequencialId | src/main/java/com/tadalafarma/Tadalafarma/service/ProdutoService.java:273-280 | 1 for an empty catalogue; null (the unboxing throws) exactly when products exist but none has a number; otherwise above every number present and one more than some product's number |
| ProdutoServico.SalvarSoAcrescentaX | src/main/java/com/tadalafarma/Tadalafarma/service/ProdutoService.java:70 | after a save the store holds the saved product, and every other document was there before |
| ProdutoServico.NumeroNovoEncontrado | src/main/java/com/tadalafarma/Tadalafarma/service/ProdutoService.java:65-70 | a product saved under a number no other product carries is what a lookup by that number finds |
| ProdutoServico.CadastradoEncontrado | src/main/java/com/tadalafarma/Tadalafarma/service/ProdutoService.java:65-71 | a newly registered product is what a lookup by the number it was given finds |
| ProdutoServico.Alterado | src/main/java/com/tadalafarma/Tadalafarma/service/ProdutoService.java:113-118 | an update writes the five form fields and the change time and keeps the store id, number, active flag and creation time |
| ProdutoServico.EstoqueAlterado | src/main/java/com/tadalafarma/Tadalafarma/service/ProdutoService.java:140-142 | a stock update is an update that changes only the stock and the change time |
| ProdutoServico.StatusAlternado | src/main/java/com/tadalafarma/Tadalafarma/service/ProdutoService.java:160-162 | the toggle negates the active flag and changes nothing but it and the change time |
| ProdutoServico.StatusAlternadoDuasVezes | src/main/java/com/tadalafarma/Tadalafarma/service/ProdutoService.java:153-170 | toggling twice restores the product apart from the change time |
| ProdutoServico.UltimaPosicao | src/main/java/com/tadalafarma/Tadalafarma/service/ProdutoService.java:202 | `lastIndexOf` answers the last position of the character, or -1 exactly when it is absent |
| ProdutoServico.Extensao | src/main/java/com/tadalafarma/Tadalafarma/service/ProdutoService.java:202 | the extension throws exactly for a null name or a name without a dot, and is otherwise the name from its last dot on |
| ProdutoServico.SemPrincipal | src/main/java/com/tadalafarma/Tadalafarma/service/ProdutoService.java:210-216 | the product's images lose the principal flag, every other image and every other field stay as they were |
| ProdutoServico.Limpas | src/main/java/com/tadalafarma/Tadalafarma/service/ProdutoService.java:212-215 | clearing the flag of the images with given identifiers keeps length and identifiers |
| ProdutoServico.LimpasPasso | src/main/java/com/tadalafarma/Tadalafarma/service/ProdutoService.java:213-214 | saving one more cleared image clears one more identifier |
| ProdutoServico.LimpasDoProduto | src/main/java/com/tadalafarma/Tadalafarma/service/ProdutoService.java:211-215 | clearing every image the product listing returned is clearing the flag of the product's images |
| ProdutoServico.LimpasPorProduto | src/main/java/com/tadalafarma/Tadalafarma/service/ProdutoService.java:211-215 | clearing by the identifiers of the product's images is clearing by product |
| ProdutoServico.UmaSoPrincipal | src/main/java/com/tadalafarma/Tadalafarma/service/ProdutoService.java:209-227 | after a principal upload the new image is the only principal image of its product, the product's older images lose the flag and other products' images are untouched |
| ProdutoServico.FlagsIntactos | src/main/java/com/tadalafarma/Tadalafarma/service/ProdutoService.java:218-227 | a non-principal upload only appends the new record, leaving every existing flag as it was |
| ProdutoServico.ImagemSalva | src/main/java/com/tadalafarma/Tadalafarma/service/ProdutoService.java:219-225 | the stored record keeps the original name, the saved name, its public path under "/images/produtos/" and the requested flag |
| ProdutoServico.ProdutoService.CadastrarProduto | src/main/java/com/tadalafarma/Tadalafarma/service/ProdutoService.java:37-76 | a failed check answers its message and saves nothing; a catalogue whose products all lack a number reports the caught exception and saves nothing; success is answered exactly otherwise, saving a new active product with the form's fields under the next number |
| ProdutoServico.ProdutoService.AlterarProduto | src/main/java/com/tadalafarma/Tadalafarma/service/ProdutoService.java:79-126 | an unknown number is reported before the fields are checked; success exactly for a known product and a valid form, saving `Alterado` of it; otherwise nothing changes |
| ProdutoServico.ProdutoService.AlterarQuantidadeEstoque | src/main/java/com/tadalafarma/Tadalafarma/service/ProdutoService.java:129-150 | an unknown number first, then a null or negative quantity are refused and change nothing; otherwise the stock and change time are saved |
| ProdutoServico.ProdutoService.AlterarStatus | src/main/java/com/tadalafarma/Tadalafarma/service/ProdutoService.java:153-170 | an unknown number changes nothing; otherwise the product's flag is negated and saved |
| ProdutoServico.ProdutoService.DesmarcarPrincipais | src/main/java/com/tadalafarma/Tadalafarma/service/ProdutoService.java:210-216 | the loop leaves the store as `SemPrincipal`: the product's images lose the flag, the others are untouched |
| ProdutoServico.ProdutoService.DesmarcarUma | src/main/java/com/tadalafarma/Tadalafarma/service/ProdutoService.java:212-215 | one turn of that loop clears the flag of one more listed image |
| ProdutoServico.ProdutoService.SalvarImagem | src/main/java/com/tadalafarma/Tadalafarma/service/ProdutoService.java:189-234 | an empty file is refused and changes nothing; a null or dot-less name or a null flag throws; otherwise success, with the product's old flags cleared for a principal upload and the new record stored with the requested flag |
| ProdutoServico.ProdutoService.DeletarImagem | src/main/java/com/tadalafarma/Tadalafarma/service/ProdutoService.java:247-270 | an unknown identifier deletes nothing and says so; otherwise the image is deleted; afterwards no image has that identifier |
| ProdutoControle.PortaoAdmin | src/main/java/com/tadalafarma/Tadalafarma/controller/ProdutoController.java:55-62 | passes exactly an administrator; an anonymous session goes to /login, any other user to the handler's own refusal |
| ProdutoControle.PapeisDe | src/main/java/com/tadalafarma/Tadalafarma/controller/ProdutoController.java:46-47 | the page flags are set exactly for the user's group, and never both |
| ProdutoControle.SucessoSoNasAlteracoes | src/main/java/com/tadalafarma/Tadalafarma/controller/ProdutoController.java:173 | none of the seven field messages nor "Produto não encontrado" contains "sucesso", and both update confirmations do: the word test is a test of the outcome |
| ProdutoControle.Formulario | src/main/java/com/tadalafarma/Tadalafarma/controller/ProdutoController.java:69-73 | the five fields of the form are bound and all present |
| ProdutoControle.EstoquistaSoEstoque | src/main/java/com/tadalafarma/Tadalafarma/controller/ProdutoController.java:166-168 | a stock clerk's accepted update leaves every product as it was except the named one, which differs only in its stock (now the form's) and its change time |
| ProdutoControle.SemAsDeletadas | src/main/java/com/tadalafarma/Tadalafarma/controller/ProdutoController.java:175-179 | after deleting each listed identifier in turn an image remains exactly when it was there and its identifier was not listed; distinct identifiers stay distinct |
| ProdutoControle.PrincipalDoEnvio | src/main/java/com/tadalafarma/Tadalafarma/controller/ProdutoController.java:100 | an upload is principal exactly when the flag list is present, long enough and holds true at its position; a null entry there throws on unboxing; otherwise it is not principal |
| ProdutoControle.ComEnvio | src/main/java/com/tadalafarma/Tadalafarma/service/ProdutoService.java:189-234 | storing one non-empty upload throws exactly when its name has no extension |
| ProdutoControle.ComEnviosPula | src/main/java/com/tadalafarma/Tadalafarma/controller/ProdutoController.java:97-103 | the upload loop skips an empty file and ends, with no exception, after the last file |
| ProdutoControle.ComEnviosPasso | src/main/java/com/tadalafarma/Tadalafarma/controller/ProdutoController.java:99-102 | a non-empty file with a null flag stops the loop with a null-pointer exception; otherwise the loop stops with the storing exception or goes on from the stored state |
| ProdutoControle.EnviosSemExcecao | src/main/java/com/tadalafarma/Tadalafarma/controller/ProdutoController.java:96-104 | the loop ends without exception exactly when every upload from the start is empty, or has a non-null flag and a name with a dot |
| ProdutoControle.SemPrincipalDoProduto | src/main/java/com/tadalafarma/Tadalafarma/service/ProdutoService.java:210-216 | clearing a product's flags only changes that product's images |
| ProdutoControle.EnviosSoDoProduto | src/main/java/com/tadalafarma/Tadalafarma/controller/ProdutoController.java:183-190 | uploads for one product touch no other product's images: every image afterwards was there before or belongs to that product |
| ProdutoControle.ExistePrimeiroPorData | src/main/java/com/tadalafarma/Tadalafarma/controller/ProdutoController.java:91-93 | a non-empty catalogue has a product that the newest-first listing puts first |
| ProdutoControle.RecarregarProduto | src/main/java/com/tadalafarma/Tadalafarma/controller/ProdutoController.java:194-202 | as written: the reload throws exactly when the product is missing, and otherwise redraws the edit page with the service's message |
| ProdutoControle.RecarregarProdutoCorrigido | src/main/java/com/tadalafarma/Tadalafarma/controller/ProdutoController.java:127-130 | corrected: never throws; a missing product gets the "Produto não encontrado" redirect of the edit page, an existing one the same page as before |
| ProdutoControle.AlteracaoDeInexistenteLanca | src/main/java/com/tadalafarma/Tadalafarma/controller/ProdutoController.java:163-203 | the update of a missing product by either group is refused, its message lacks "sucesso", and the reload throws, where the corrected reload redirects |
| ProdutoControle.ProdutoController.ListarProdutos | src/main/java/com/tadalafarma/Tadalafarma/controller/ProdutoController.java:32-50 | an anonymous session goes to /login; any logged-in user gets the listing with the flags of their group |
| ProdutoControle.ProdutoController.PaginaCadastro | src/main/java/com/tadalafarma/Tadalafarma/controller/ProdutoController.java:54-65 | the form is shown exactly to an administrator; a stock clerk is refused; an anonymous session goes to the login |
| ProdutoControle.ProdutoController.PaginaAlteracao | src/main/java/com/tadalafarma/Tadalafarma/controller/ProdutoController.java:121-141 | an anonymous session goes to /login; a missing product to the not-found redirect; otherwise the edit page with the group flags |
| ProdutoControle.ProdutoController.VisualizarProduto | src/main/java/com/tadalafarma/Tadalafarma/controller/ProdutoController.java:208-226 | the preview is shown exactly to a logged-in user, of any group, for an existing product |
| ProdutoControle.ProdutoController.EnviarImagens | src/main/java/com/tadalafarma/Tadalafarma/controller/ProdutoController.java:182-190 | the loop leaves the image store and the exception that stopped it exactly as `ComEnvios` describes |
| ProdutoControle.ProdutoController.EnviarUma | src/main/java/com/tadalafarma/Tadalafarma/controller/ProdutoController.java:184-188 | one turn of that loop agrees with one step of `ComEnvios` |
| ProdutoControle.ProdutoController.DeletarImagens | src/main/java/com/tadalafarma/Tadalafarma/controller/ProdutoController.java:175-179 | the deletion loop leaves the image store as `SemAsDeletadas` of the listed identifiers |
| ProdutoControle.ProdutoController.ProcessarCadastro | src/main/java/com/tadalafarma/Tadalafarma/controller/ProdutoController.java:68-117 | a refused session changes nothing; a refused form or a failed numbering redraws the form with an error and changes nothing; otherwise the product is saved under the next number and the uploads go to the first product of the newest-first listing, ending in the success redirect or the exception that stopped them |
| ProdutoControle.ProdutoController.AlterarConformeGrupo | src/main/java/com/tadalafarma/Tadalafarma/controller/ProdutoController.java:163-171 | an administrator's update goes through the full update and a stock clerk's through the stock update; the answer mentions "sucesso" exactly when the update is accepted, which saves it, and otherwise nothing changes |
| ProdutoControle.ProdutoController.ProcessarAlteracao | src/main/java/com/tadalafarma/Tadalafarma/controller/ProdutoController.java:144-204 | an anonymous or group-less user changes nothing; an accepted update is saved, the listed images deleted and the uploads stored, ending in the success redirect or the upload exception; a refused one changes nothing and redraws the edit page, or throws when the product is missing |
| ProdutoControle.ProdutoController.AlterarStatus | src/main/java/com/tadalafarma/Tadalafarma/controller/ProdutoController.java:229-242 | administrators only; an unknown product changes nothing and its "não encontrado" message is still sent as `sucesso`; otherwise the flag is toggled |
| ProdutoControle.ProdutoController.DeletarImagem | src/main/java/com/tadalafarma/Tadalafarma/controller/ProdutoController.java:245-258 | administrators only; the image, if present, is deleted, and the service's answer is sent as `sucesso` whichever it is |
| PedidoServico.ValidarDadosCartao | src/main/java/com/tadalafarma/Tadalafarma/service/PedidoService.java:37-62 | a refusal is one of the five card messages |
| PedidoServico.CartaoPrimeiraFalha | src/main/java/com/tadalafarma/Tadalafarma/service/PedidoService.java:41-61 | the answer is the message of check `k` (number with at least 13 digits, code of exactly 3 characters, name present and non-blank, expiry of the shape `dd/dd`, 1 to 12 instalments) exactly when the checks before `k` pass and check `k` fails, and null exactly when all five pass |
| PedidoServico.CodigoSoContaCaracteres | src/main/java/com/tadalafarma/Tadalafarma/service/PedidoService.java:45 | the code check counts characters, not digits: "abc" passes |
| PedidoServico.VencimentoSoFormato | src/main/java/com/tadalafarma/Tadalafarma/service/PedidoService.java:53 | the expiry check looks at the shape only: "99/99" passes |
| PedidoServico.CartaoSoFormato | src/main/java/com/tadalafarma/Tadalafarma/service/PedidoService.java:37-62 | a card with the code "abc" and the expiry "99/99" is accepted whenever the number, name and instalments are acceptable |
| PedidoServico.StatusValidoRotulados | src/main/java/com/tadalafarma/Tadalafarma/service/PedidoService.java:202-211 | a status is accepted exactly when it is one of the labelled codes other than CANCELADO; null and CANCELADO are refused |
| PedidoServico.ItemDe | src/main/java/com/tadalafarma/Tadalafarma/service/PedidoService.java:130-138 | the line item snapshots the product's number, name and unit price, the quantity asked, and price × quantity as its total |
| PedidoServico.ItensPasso | src/main/java/com/tadalafarma/Tadalafarma/service/PedidoService.java:119-141 | walking a cart entry whose product exists adds exactly its item, and the items stay one per walked product, none twice |
| PedidoServico.ItensPula | src/main/java/com/tadalafarma/Tadalafarma/service/PedidoService.java:121 | walking an entry whose product is missing adds nothing and keeps that invariant |
| PedidoServico.PercorrerCarrinho | src/main/java/com/tadalafarma/Tadalafarma/service/PedidoService.java:115-143 | the walk stops on a shortage exactly when some entry's product has less stock than asked, naming such a product; otherwise it yields one item per entry whose product exists, in any order, and the subtotal is the sum of their price × quantity |
| PedidoServico.Guardas | src/main/java/com/tadalafarma/Tadalafarma/service/PedidoService.java:69-104 | an absent or empty cart is refused first; when every guard passes the customer exists, the address is present, the payment is BOLETO or CARTAO, and a card payment carries card data that passes the card check |
| PedidoServico.GuardasPrimeiraFalha | src/main/java/com/tadalafarma/Tadalafarma/service/PedidoService.java:69-104 | the guards run in the order cart present and non-empty, customer exists, address present, payment BOLETO or CARTAO, card data present for CARTAO, card data valid for CARTAO: the answer is the message of guard `k` exactly when the guards before `k` pass and guard `k` fails, the card's own message when only the card check fails, and null exactly when all six pass |
| PedidoServico.PedidoCriado | src/main/java/com/tadalafarma/Tadalafarma/service/PedidoService.java:106-147 | the saved order is numbered, owned by the customer, awaiting payment, created and updated now, holds the items and subtotal, the shipping fee (0 when null) and their sum as total |
| PedidoServico.PedidoMontado | src/main/java/com/tadalafarma/Tadalafarma/service/PedidoService.java:107-147 | the order filled in field by field and by `setStatus` is the one `PedidoCriado` describes |
| PedidoServico.PedidoService.ProximoNumeroPedido | src/main/java/com/tadalafarma/Tadalafarma/service/PedidoService.java:28-34 | the next order number is above every order number present, and 1 when no order has one |
| PedidoServico.PedidoService.CriarPedido | src/main/java/com/tadalafarma/Tadalafarma/service/PedidoService.java:65-155 | the first failing guard, in the order `GuardasPrimeiraFalha` states, answers its message and saves nothing; a shortage answers "Produto … não possui estoque suficiente" for a short product and saves nothing; otherwise the order of `PedidoCriado` is saved with the next number, the cart's items and their subtotal; the stock is never changed |
| PedidoServico.PedidoService.AtualizarStatusPedido | src/main/java/com/tadalafarma/Tadalafarma/service/PedidoService.java:178-199 | an unknown order is reported before the status is looked at; success exactly for a known order and a working status, which is then saved; otherwise nothing changes |
| ClienteServico.CpfCliente | src/main/java/com/tadalafarma/Tadalafarma/service/ClienteService.java:29-65 | null or a length other than 11 is refused before stripping; an all-digit CPF gets the check-digit verdict; the answer is true exactly for a valid CPF, and it throws only for an eleven-character string with a non-digit in it |
| ClienteServico.ValidarCpf | src/main/java/com/tadalafarma/Tadalafarma/service/ClienteService.java:29-65 | the two accumulation loops, run in the source's order, give the verdict of `CpfCliente` |
| ClienteServico.CpfFormatadoRecusado | src/main/java/com/tadalafarma/Tadalafarma/service/ClienteService.java:30 | "111.444.777-35" is refused although its digits "11144477735" are accepted |
| ClienteServico.CpfDezDigitos | src/main/java/com/tadalafarma/Tadalafarma/service/ClienteService.java:35-64 | an eleven-character CPF that strips to ten digits throws when its tenth digit is the right first check digit, and is refused otherwise |
| ClienteServico.CpfComLetraLanca | src/main/java/com/tadalafarma/Tadalafarma/service/ClienteService.java:63-64 | ten digits whose last is the right first check digit, followed by a letter, make the second check read past the end |
| ClienteServico.CpfComLetraRecusado | src/main/java/com/tadalafarma/Tadalafarma/service/ClienteService.java:63 | nine digits, a letter and a wrong first check digit are refused |
| ClienteServico.SemLetraFinal | src/main/java/com/tadalafarma/Tadalafarma/service/ClienteService.java:35 | stripping drops a trailing non-digit |
| ClienteServico.SemLetraDecima | src/main/java/com/tadalafarma/Tadalafarma/service/ClienteService.java:35 | stripping drops a non-digit between digits |
| ClienteServico.SomaDaBase | src/main/java/com/tadalafarma/Tadalafarma/service/ClienteService.java:43-50 | the digits 111444777 weigh 162, whose first check digit is 3 |
| ClienteServico.CpfComLetraLancaExemplo | src/main/java/com/tadalafarma/Tadalafarma/service/ClienteService.java:29-65 | "1114447773a" throws |
| ClienteServico.CpfComLetraRecusadoExemplo | src/main/java/com/tadalafarma/Tadalafarma/service/ClienteService.java:29-65 | "111444777a5" is refused |
| ClienteServico.ValidarNome | src/main/java/com/tadalafarma/Tadalafarma/service/ClienteService.java:78-95 | the loop accepts exactly a non-blank name of at least two words, each at least three characters long |
| ClienteServico.GeneroSemCaixa | src/main/java/com/tadalafarma/Tadalafarma/service/ClienteService.java:124-126 | "Feminino" is accepted: case does not matter |
| ClienteServico.GeneroComBrancos | src/main/java/com/tadalafarma/Tadalafarma/service/ClienteService.java:124-126 | " OUTRO " is accepted: surrounding blanks do not matter |
| ClienteServico.GeneroDesconhecido | src/main/java/com/tadalafarma/Tadalafarma/service/ClienteService.java:119-127 | a value outside the accepted genders is refused |
| ClienteServico.ComplementoIndiferente | src/main/java/com/tadalafarma/Tadalafarma/service/ClienteService.java:130-160 | the complement never decides whether an address is complete |
| ClienteServico.DataNascimento | src/main/java/com/tadalafarma/Tadalafarma/service/ClienteService.java:98-116 | null or blank text has no date; a date is answered only when the text parses to it and it is not after today, and every such text gets its date |
| ClienteServico.Faturamento | src/main/java/com/tadalafarma/Tadalafarma/service/ClienteService.java:257-264 | the billing address is the looked-up address with the form's number and complement, not a default |
| ClienteServico.NovoCliente | src/main/java/com/tadalafarma/Tadalafarma/service/ClienteService.java:270-283 | the registered customer is active, has the trimmed name, the CPF, e-mail, gender, hashed password and parsed birth date of the form, the billing address, and one delivery address: a copy of the billing one under its own id, the only default |
| ClienteServico.Cadastro | src/main/java/com/tadalafarma/Tadalafarma/service/ClienteService.java:213-288 | registration throws exactly when the name passes and the CPF check throws; a customer is saved exactly when the answer is the success message, and it has the new id and one delivery address |
| ClienteServico.CadastroPrimeiraFalha | src/main/java/com/tadalafarma/Tadalafarma/service/ClienteService.java:219-268 | unless the CPF check throws, the answer is the message of check `k` (name, CPF, CPF in use, e-mail, e-mail in use, birth date, gender, password, confirmation, postal code, address) exactly when the checks before `k` pass and check `k` fails |
| ClienteServico.CadastroSalvaSeTodas | src/main/java/com/tadalafarma/Tadalafarma/service/ClienteService.java:213-288 | registration saves a customer exactly when all eleven checks pass |
| ClienteServico.Desmarcados | src/main/java/com/tadalafarma/Tadalafarma/service/ClienteService.java:381 | every address loses its default flag and nothing else changes |
| ClienteServico.DesmarcarTodos | src/main/java/com/tadalafarma/Tadalafarma/service/ClienteService.java:406 | the `forEach` over the addresses leaves them as `Desmarcados` |
| ClienteServico.ComNovoEndereco | src/main/java/com/tadalafarma/Tadalafarma/service/ClienteService.java:379-385 | the customer gains one delivery address at the end, with the requested flag; the other addresses change at most in their flag; when it is to be the default it becomes the only one, otherwise the earlier addresses are untouched |
| ClienteServico.MarcarPrimeiro | src/main/java/com/tadalafarma/Tadalafarma/service/ClienteService.java:405-416 | after the marking exactly the first address with the id is the default, nothing else changes, and there is at most one default |
| ClienteServico.MarcarEndereco | src/main/java/com/tadalafarma/Tadalafarma/service/ClienteService.java:405-416 | the two loops report whether some address has the id, and when one has, leave the list as `MarcarPrimeiro` |
| ClienteServico.MarcarPrimeiroComoDefinir | src/main/java/com/tadalafarma/Tadalafarma/service/ClienteService.java:405-416 | with unique address ids, the service's marking is the customer's own `definirEnderecoPadrao` |
| ClienteServico.ClienteService.Autenticar | src/main/java/com/tadalafarma/Tadalafarma/service/ClienteService.java:173-200 | a customer is answered only when it is what the e-mail lookup finds, is active and its stored hash matches the password, and such a customer is always answered; an unknown e-mail gets null |
| ClienteServico.ClienteService.CadastrarCliente | src/main/java/com/tadalafarma/Tadalafarma/service/ClienteService.java:213-288 | the store changes exactly as `Cadastro` says: the new customer is saved on success, nothing otherwise, and an exception escapes unchanged |
| ClienteServico.ClienteService.AlterarDadosCliente | src/main/java/com/tadalafarma/Tadalafarma/service/ClienteService.java:302-330 | an unknown customer first, then name, birth date and gender in turn; success exactly when all pass, saving the trimmed name, the parsed date and the gender; otherwise nothing changes; the answer is `MensagemAlteracaoDados` of what was found |
| ClienteServico.ClienteService.AlterarSenhaCliente | src/main/java/com/tadalafarma/Tadalafarma/service/ClienteService.java:333-352 | an unknown customer, a blank new password or a mismatched confirmation are refused in that order and change nothing; otherwise the new password's hash is saved |
| ClienteServico.ClienteService.AdicionarEnderecoEntrega | src/main/java/com/tadalafarma/Tadalafarma/service/ClienteService.java:355-390 | an unknown customer, an unknown postal code or an incomplete address are refused and change nothing; otherwise the customer is saved as `ComNovoEndereco` of the looked-up address with the form's number and complement; the answer is `MensagemAdicaoEndereco` of what was found |
| ClienteServico.ClienteService.AlterarEnderecoPadrao | src/main/java/com/tadalafarma/Tadalafarma/service/ClienteService.java:393-425 | an unknown customer, one with no delivery address, or an id matching none of them are refused and change nothing; otherwise the customer is saved with the first matching address as the only default; the answer is `MensagemEnderecoPadrao` of what was found |
| ClienteServico.MensagemAlteracaoDados | src/main/java/com/tadalafarma/Tadalafarma/service/ClienteService.java:302-330 | the answer is the success message exactly when the customer exists and the name, birth date and gender are all valid; an unknown customer is answered first |
| ClienteServico.MensagemAdicaoEndereco | src/main/java/com/tadalafarma/Tadalafarma/service/ClienteService.java:355-390 | the answer is the success message exactly when the customer exists, the postal code is found and the address with the form's number and complement is complete; an unknown customer is answered first |
| ClienteServico.MensagemEnderecoPadrao | src/main/java/com/tadalafarma/Tadalafarma/service/ClienteService.java:393-425 | the answer is the success message exactly when the customer exists and has a delivery address with the id; an unknown customer is answered first |
| ClienteControle.CalcularFretePorCep | src/main/java/com/tadalafarma/Tadalafarma/controller/ClienteController.java:309-331 | the fee is always one of 15.00, 25.00 and 35.00 |
| ClienteControle.FretePorRegiao | src/main/java/com/tadalafarma/Tadalafarma/controller/ClienteController.java:311-330 | only the first two digits count: 15.00 exactly for "01" to "09", 25.00 exactly for "20" to "29", 35.00 for everything else, "00", "1x" and fewer than two digits included |
| ClienteControle.FreteIgnoraFormatacao | src/main/java/com/tadalafarma/Tadalafarma/controller/ClienteController.java:311 | punctuation is ignored, and the empty postal code pays 35.00 |
| ClienteControle.RespostaResumo | src/main/java/com/tadalafarma/Tadalafarma/controller/ClienteController.java:526-547 | the summary page is shown exactly to a logged-in customer with a non-empty cart, a chosen address and a chosen payment; otherwise it redirects, always to login, the cart, the address step or the payment step |
| ClienteControle.ResumoPassaGuardas | src/main/java/com/tadalafarma/Tadalafarma/controller/ClienteController.java:537-547 | a session that reaches the summary with a payment the payment step stored passes every guard of the order creation for an existing customer, so only a stock shortage can still refuse it |
| ClienteControle.ComErro | src/main/java/com/tadalafarma/Tadalafarma/controller/ClienteController.java:621-623 | the error is added to a page and a redirect is left as it is |
| ClienteControle.GuardasSemSucesso | src/main/java/com/tadalafarma/Tadalafarma/service/PedidoService.java:69-104 | no guard message of the order creation contains "sucesso" or is the creation message |
| ClienteControle.EstoqueComSucesso | src/main/java/com/tadalafarma/Tadalafarma/service/PedidoService.java:126-128 | the stock message is never the creation message, and it contains "sucesso" whenever the product's name does |
| ClienteControle.SucessoAceitaFaltaDeEstoque | src/main/java/com/tadalafarma/Tadalafarma/controller/ClienteController.java:621 | as written: the shortage answer for a product named "Gel sucesso" passes the `contains("sucesso")` test although no order was saved |
| ClienteControle.ConfirmadoSoComPedido | src/main/java/com/tadalafarma/Tadalafarma/controller/ClienteController.java:618-624 | corrected: testing for the creation message accepts exactly the answers given when an order was saved, and every such answer also passes the word test |
| ClienteControle.SomarCarrinho | src/main/java/com/tadalafarma/Tadalafarma/controller/ClienteController.java:630-638 | the loop adds price × quantity of every cart entry whose product still exists, in any order, and yields the cart's subtotal |
| ClienteControle.ClienteController.ProcessarLoginCliente | src/main/java/com/tadalafarma/Tadalafarma/controller/ClienteController.java:90-110 | a refused log-in redraws the form with its error and leaves the session alone; an accepted one stores the customer and goes to the stored post-login target, which is removed, or else to the profile |
| ClienteControle.ClienteController.LogoutCliente | src/main/java/com/tadalafarma/Tadalafarma/controller/ClienteController.java:115-118 | only the logged-in customer leaves the session, and the visitor goes back to the shop |
| ClienteControle.ClienteController.RecalcularFreteAutomatico | src/main/java/com/tadalafarma/Tadalafarma/controller/ClienteController.java:288-306 | the fee of the first default delivery address and its postal code go into the session; without a default address nothing changes; a null address list or postal code throws before anything is stored; it throws exactly when `FreteRecalculado` does, and leaves the fee fields as `FreteAposRecalculo` says |
| ClienteControle.ClienteController.IniciarCheckout | src/main/java/com/tadalafarma/Tadalafarma/controller/ClienteController.java:344-362 | an anonymous visitor goes to log in with the address step stored as the post-login target; a logged-in customer goes to the cart with an error when it is null or empty, and to the address step otherwise, with the session unchanged |
| ClienteControle.ClienteController.ProcessarEnderecoEscolhido | src/main/java/com/tadalafarma/Tadalafarma/controller/ClienteController.java:380-407 | the first delivery address of the session's customer with the id becomes the chosen address and the payment step follows; an unknown id redraws the page; a null address list throws |
| ClienteControle.ClienteController.ProcessarFormaPagamento | src/main/java/com/tadalafarma/Tadalafarma/controller/ClienteController.java:474-520 | only BOLETO and CARTAO are accepted; a card needs all five fields and must pass the card check; the summary follows exactly when the choice is accepted, and the stored choice then passes the payment guards of the order creation, with null card data for BOLETO |
| ClienteControle.ClienteController.ResumoPedido | src/main/java/com/tadalafarma/Tadalafarma/controller/ClienteController.java:525-580 | the answer is `RespostaResumo`; when the page is shown it carries the cart's subtotal at current prices, the session's fee (25.00 when none) and their sum |
| ClienteControle.ClienteController.CriarDoCheckout | src/main/java/com/tadalafarma/Tadalafarma/controller/ClienteController.java:618-619 | the order creation answers its success message exactly when an order could be made, and then the customer has a latest order; any other answer leaves the order store as it was |
| ClienteControle.ClienteController.Finalizar | src/main/java/com/tadalafarma/Tadalafarma/controller/ClienteController.java:595-653 | with the answer test as a parameter: an anonymous session or an empty cart redirects and changes nothing; a refused answer redraws the summary with it as error and leaves the session alone; an accepted one throws when the customer has no order, and otherwise shows the latest order's number and the total and removes exactly the five checkout attributes |
| ClienteControle.ClienteController.Confirmar | src/main/java/com/tadalafarma/Tadalafarma/controller/ClienteController.java:627-652 | the accepted branch: the latest order is looked up (throwing when there is none), the confirmation carries its number and the subtotal plus the fee, and the five checkout attributes are removed |
| ClienteControle.ClienteController.FinalizarPedido | src/main/java/com/tadalafarma/Tadalafarma/controller/ClienteController.java:595-653 | as written: the session changes only when the answer contains "sucesso", and then the checkout attributes are gone unless the lookup threw; any answer other than the creation message leaves the order store alone |
| ClienteControle.ClienteController.FinalizarPedidoConfirmado | src/main/java/com/tadalafarma/Tadalafarma/controller/ClienteController.java:595-653 | corrected: never throws; the checkout attributes are removed and a confirmation shown exactly when an order was saved; otherwise neither the session nor the order store changes |
| ClienteControle.ClienteController.DetalhesPedido | src/main/java/com/tadalafarma/Tadalafarma/controller/ClienteController.java:672-694 | the order is shown to its owner, and only to its owner; a foreign order gets the same "not found" redirect as a missing one; an order without an owner throws |
| ClienteControle.MensagensCartaoSemSucesso | src/main/java/com/tadalafarma/Tadalafarma/service/PedidoService.java:37-62 | no message of the card check contains "sucesso" |
| ClienteControle.FreteRecalculado | src/main/java/com/tadalafarma/Tadalafarma/controller/ClienteController.java:288-306 | the recalculation only ever throws a null-pointer exception; it leaves the fee alone exactly when the address list exists and holds no default; a postal code it charges is that of a default address |
| ClienteControle.PadraoNovoDefineFrete | src/main/java/com/tadalafarma/Tadalafarma/controller/ClienteController.java:244-250 | after an address is added as the default, the recalculation charges that address's postal code, or throws when it has none |
| ClienteControle.PadraoMarcadoDefineFrete | src/main/java/com/tadalafarma/Tadalafarma/controller/ClienteController.java:275-282 | after an address is marked as the default, the recalculation charges the postal code of the first address with that id, or throws when it has none |
| ClienteControle.PrimeiroPorCepENumero | src/main/java/com/tadalafarma/Tadalafarma/controller/ClienteController.java:441-446 | the checkout search answers the first address whose stored postal code and number equal the typed ones, with every earlier address passed over; none exactly when every address is passed over; a null-pointer exception at the first address with a null postal code, or with a null number behind an equal postal code |
| ClienteControle.ParaNoPrimeiro | src/main/java/com/tadalafarma/Tadalafarma/controller/ClienteController.java:441-446 | the search stops at the first address it does not pass over: it picks it when it matches and throws otherwise |
| ClienteControle.AcrescentadoEncontrado | src/main/java/com/tadalafarma/Tadalafarma/controller/ClienteController.java:441-446 | when no stored address matches, an address appended with the typed postal code and number is the one found |
| ClienteControle.CepSoDigitosEncontraONovo | src/main/java/com/tadalafarma/Tadalafarma/controller/ClienteController.java:432-446 | a postal code typed as digits only finds the address the checkout just added, when no earlier address has that postal code and number |
| ClienteControle.CepFormatadoNaoEncontra | src/main/java/com/tadalafarma/Tadalafarma/controller/ClienteController.java:441-451 | a postal code typed with punctuation finds no address whose stored postal code is digits only, so the form is redrawn although the address was saved |
| ClienteControle.ClienteController.ProcessarAlteracaoDados | src/main/java/com/tadalafarma/Tadalafarma/controller/ClienteController.java:146-167 | an anonymous visitor goes to log in and nothing changes; on success the store holds the changed customer, the reloaded customer (the saved one when identifiers are distinct) goes into the session and the profile follows with the message; otherwise the form is redrawn with the service's answer and nothing changes |
| ClienteControle.ClienteController.ProcessarAdicaoEndereco | src/main/java/com/tadalafarma/Tadalafarma/controller/ClienteController.java:226-266 | an anonymous visitor goes to log in; on success the store holds the customer with the new address, the reloaded customer goes into the session, and a new default address also recalculates the fee, throwing when the recalculation does; otherwise the form is redrawn with the service's answer and nothing changes |
| ClienteControle.ClienteController.AlterarEnderecoPadrao | src/main/java/com/tadalafarma/Tadalafarma/controller/ClienteController.java:268-285 | an anonymous visitor goes to log in; whatever the service answers, the stored customer is reloaded into the session and the fee recalculated from it, and the answer is always the address list with "freteAtualizado=true", unless the recalculation throws; the store changes only on success |
| ClienteControle.ClienteController.ProcessarAdicaoEnderecoCheckout | src/main/java/com/tadalafarma/Tadalafarma/controller/ClienteController.java:422-452 | an anonymous visitor goes to log in; on success the store holds the customer with the new, non-default address, the reloaded customer goes into the session, and the address `PrimeiroPorCepENumero` finds becomes the chosen one before the payment step; when it finds none the form is redrawn with the success message as its error; a failed addition redraws it with the service's answer and changes nothing |
| LojaControle.Incrementado | src/main/java/com/tadalafarma/Tadalafarma/controller/LojaController.java:90 | add or increase: the product's quantity becomes the old one plus one, a missing product counting as 0; every other entry is kept and no other key appears |
| LojaControle.Decrementado | src/main/java/com/tadalafarma/Tadalafarma/controller/LojaController.java:181-186 | decrease: a quantity above 1 goes down by one; at 1 or below, or when the product is absent, the key is removed; every other entry is kept |
| LojaControle.Removido | src/main/java/com/tadalafarma/Tadalafarma/controller/LojaController.java:195 | remove: the key is gone and every other entry is kept |
| LojaControle.RemovidoIdempotente | src/main/java/com/tadalafarma/Tadalafarma/controller/LojaController.java:195 | removing twice is the same as removing once |
| LojaControle.DecrementoDesfazIncremento | src/main/java/com/tadalafarma/Tadalafarma/controller/LojaController.java:172-186 | on a cart whose quantities are all positive, a decrease undoes an increase |
| LojaControle.OperacoesMantemPositivas | src/main/java/com/tadalafarma/Tadalafarma/controller/LojaController.java:90-195 | starting from positive quantities, add, decrease and remove all keep every stored quantity at least 1 |
| LojaControle.ContagemIncremento | src/main/java/com/tadalafarma/Tadalafarma/controller/LojaController.java:221-224 | an increase adds one to the item count |
| LojaControle.ContagemDecremento | src/main/java/com/tadalafarma/Tadalafarma/controller/LojaController.java:181-186 | on a cart of positive quantities a decrease takes one from the item count when the product is in the cart, and nothing otherwise |
| LojaControle.ContagemRemocao | src/main/java/com/tadalafarma/Tadalafarma/controller/LojaController.java:195 | a removal takes the product's whole quantity off the item count |
| LojaControle.ContarItens | src/main/java/com/tadalafarma/Tadalafarma/controller/LojaController.java:223 | the stream sum over the quantities, in any order, is the item count, and with positive quantities it is at least the number of products |
| LojaControle.ImagemDoProduto | src/main/java/com/tadalafarma/Tadalafarma/controller/LojaController.java:38-53 | the path of one of the product's principal images when it has one, else the path of its first image, else the placeholder; a product without a sequential id gets the placeholder |
| LojaControle.VitrineMostraNovaPrincipal | src/main/java/com/tadalafarma/Tadalafarma/controller/LojaController.java:113-118 | after an upload marked principal, the storefront shows the new image for its product |
| LojaControle.ItemCarrinhoDe | src/main/java/com/tadalafarma/Tadalafarma/controller/LojaController.java:110-130 | a cart line carries the product, the quantity, the same total as an order item, and the storefront image |
| LojaControle.LinhasPasso | src/main/java/com/tadalafarma/Tadalafarma/controller/LojaController.java:107-132 | one loop turn over an entry whose product exists adds its line and keeps the lines distinct, exact and complete for the entries walked |
| LojaControle.LinhasPula | src/main/java/com/tadalafarma/Tadalafarma/controller/LojaController.java:108 | an entry whose product is missing adds no line |
| LojaControle.MontarLinhas | src/main/java/com/tadalafarma/Tadalafarma/controller/LojaController.java:106-134 | the loop, in any order, gives exactly one line per cart entry whose product exists, and the subtotal is the cart's subtotal at current prices |
| LojaControle.Ativos | src/main/java/com/tadalafarma/Tadalafarma/controller/LojaController.java:33 | the active products and nothing else |
| LojaControle.LojaController.ObterCarrinho | src/main/java/com/tadalafarma/Tadalafarma/controller/LojaController.java:212-219 | the session cart, and a missing cart is replaced by a new empty one that is stored |
| LojaControle.LojaController.TotalItensCarrinho | src/main/java/com/tadalafarma/Tadalafarma/controller/LojaController.java:221-224 | the item count is the sum of the quantities, and a missing cart is created empty |
| LojaControle.LojaController.AdicionarAoCarrinho | src/main/java/com/tadalafarma/Tadalafarma/controller/LojaController.java:84-97 | the cart becomes its increase for the product; the answer is the shop only for `acao == "continuar"` and the cart page otherwise |
| LojaControle.LojaController.AumentarQuantidade | src/main/java/com/tadalafarma/Tadalafarma/controller/LojaController.java:170-175 | the cart becomes its increase for the product, and the cart page follows |
| LojaControle.LojaController.DiminuirQuantidade | src/main/java/com/tadalafarma/Tadalafarma/controller/LojaController.java:179-189 | the cart becomes its decrease for the product, and the cart page follows |
| LojaControle.LojaController.RemoverProduto | src/main/java/com/tadalafarma/Tadalafarma/controller/LojaController.java:193-198 | the product leaves the cart, and the cart page follows |
| LojaControle.LojaController.CalcularFrete | src/main/java/com/tadalafarma/Tadalafarma/controller/LojaController.java:202-208 | the postal code and the chosen fee are stored exactly as given |
| LojaControle.LojaController.VerCarrinho | src/main/java/com/tadalafarma/Tadalafarma/controller/LojaController.java:101-166 | one line per entry whose product exists; the subtotal at current prices; the chosen fee, or 10.00 written back to the session when none was chosen; the total is their sum; the item count is the sum of the quantities |
| LojaControle.LojaController.ImagensPrincipais | src/main/java/com/tadalafarma/Tadalafarma/controller/LojaController.java:32-55 | every active product's sequential id is a key, each key belongs to an active product, and its value is the image the storefront shows for it |

## Where the code is followed

Where the code and the behaviour its tests and documentation expect differ, the model follows the code:

- **Customer CPF.** The customer validator tests the raw length before stripping punctuation, so "111.444.777-35" is refused for customers. The staff validator strips first and accepts it. Both facts are stated in `UsuarioServico.CpfFormatadoAceito`.
- **Product view.** The product view has no group check, so a stock clerk can open it (`ProdutoControle.ProdutoController.VisualizarProduto`).
- **Shipping default.** The cart page's default fee is 10.00 and checkout's is 25.00. The two are modelled as different constants.
- **Stock.** Order creation reads stock but never decrements it.
- **Address form fields.** When a postal lookup succeeds, the street, district, city and state typed into the customer forms are ignored, and the lookup's values are stored.
- **Rating.** The product rating is accepted for 0 < r ≤ 5, although its message says "entre 1 e 5".
- **Product numbering.** The next product number reads the top product's number without a null check, so it throws when products exist but none has a number.
- **Saving an image.** This throws on a file name without a dot, on a null name and on a null principal flag.
- **Status toggle and image deletion.** The product handlers redirect with "sucesso=" followed by whatever the service answered, even an error.
- **Card checks.** The verification code counts characters, not digits. The expiry is checked only for the shape `dd/dd`.
- **Address added at checkout.** The new address is stored with the digits of the postal code (`ViaCepService.java:19,34`), but the checkout looks for it by the postal code as typed (`ClienteController.java:442`). A code typed with punctuation ("01310-100") finds nothing, so the address is saved and the form is redrawn with "Endereço adicionado com sucesso" as its error (`ClienteControle.CepFormatadoNaoEncontra`). An older address with the same postal code and number is picked before the new one.
- **Order listing.** `PedidoService.java:174` calls `findAllByOrderByDataCriacaoDesc` on the order repository, whose interface does not declare it. The model gives the call the meaning of that Spring Data query name: every order, the newest first. The order among orders created at the same instant is left open.

## Left out

- Spring plumbing:
  - view model attributes;
  - request binding;
  - multipart handling;
  - the GET pages that only load data for a view.
- ClienteController handlers that only forward to a service and redirect on its answer, without touching the session:
  - `processarCadastro`, `processarAlteracaoSenha`;
  - `voltarCheckout`, `meusPedidos`;
  - the `/api/cep` endpoint.
  The service operations they call are modelled. The handlers that also change the session (`processarAlteracaoDados`, `processarAdicaoEndereco`, `alterarEnderecoPadrao`, `processarAdicaoEnderecoCheckout`) are modelled in `ClienteControle.ClienteController`.
- `detalheProduto` of the storefront: a repository lookup that loads a view.
- Password hashing: an uninterpreted encoder and matcher, because BCrypt is a foreign library.
- The ViaCEP web call: an oracle. Only the normalisation in front of it and the address built from its answer are modelled. `ViaCepService.validarCep` is not modelled, because nothing calls it.
- The file system, UUID generation and `LocalDateTime.now()`. These are parameters: the stored file name's random part, fresh ids, the current instant and today's date.
- `java.time` date parsing: an oracle from text to a date.
- Product listing search and paging. The search term is passed to MongoDB as an unescaped regular expression, whose semantics are not modelled.
- MongoDB unique indexes, and the non-atomic read-the-maximum-then-write numbering under concurrent requests.
- HashMap iteration order. Loops over the cart take entries in any order, so which product the stock error names is not fixed.
- The `catch` blocks that turn an exception from a repository save into an "Erro ao …" message. The in-memory repositories never fail to save.
- `Produto` money and rating formatting with `String.format`, and `BigDecimal` scale-sensitive equality. Values are compared numerically.
- `DataInitializer.java`: startup seeding with console output.
- `LoginController.java`: it duplicates the customer `/login` and `/logout` mappings, which are modelled in `ClienteControle`.
- `definirImagemPrincipal` and the storefront endpoints `/loja/carrinho/calcular-frete-cep` and `/loja/carrinho/atualizar-frete` are not part of this model. They appear only in the test sources, not in the application code.
- UsuarioServico.UsuarioService.Autenticar: does not model the fallback that scans the whole store after a duplicate-record exception.
- ClienteServico.ClienteService.Autenticar: does not model the same duplicate-record fallback in the customer service.
- A `null` boxed `Boolean` status on a stored user or product is not modelled. The flag is a plain `bool`.
- ParseLong: accepts ASCII digits only. `Long.parseLong` also accepts the decimal digits of other scripts ("١٢" is 12 in Java, and the model answers the invalid-id redirect).
- ProcessarCadastro: `ProdutoControle.ProdutoController.ProcessarCadastro` stores no upload when the first product of the newest-first listing has no sequential id. The source then calls `salvarImagem` with a null product number (`ProdutoController.java:93-101`), which stores images under a null number and throws on a null flag entry. This needs a stored, unnumbered product created no earlier than the new one. The same null number is why `LojaControle.ImagemDoProduto` answers the placeholder for a product without a sequential id without a lookup: the source queries the image store with the null number (`LojaController.java:39,46,114,121`), and only images stored on this path could carry it.
- Integer width. The model's integers are unbounded where Java's wrap: a cart quantity is an `Integer` that wraps past 2147483647 (`LojaController.java:90,172`), the cart item count is an `int` sum that wraps (`LojaController.java:223`), and the record numbers are `Long` values whose `max + 1` wraps past 9223372036854775807 (`UsuarioService.java:130,166`, `ProdutoService.java:278`, `PedidoService.java:33`). Reaching either bound needs a cart quantity of 2147483647 or a stored number of 9223372036854775807. The members below state their properties for unbounded integers only:
- Incrementado: adds 1 without the 32-bit wrap; from 2147483647 Java stores -2147483648.
- AdicionarAoCarrinho: stores `Incrementado`, so it inherits its missing 32-bit wrap.
- AumentarQuantidade: stores `Incrementado`, so it inherits its missing 32-bit wrap.
- DecrementoDesfazIncremento: holds for unbounded quantities only; from 2147483647 Java's increment wraps negative and the following decrement removes the entry.
- OperacoesMantemPositivas: holds for unbounded quantities only; Java's increment at 2147483647 stores a negative quantity.
- ContarItens: the unbounded sum of the quantities; Java's `mapToInt(...).sum()` is taken modulo 2^32.
- TotalItensCarrinho: answers the unbounded sum of `ContarItens`, without the 32-bit wrap.
- VerCarrinho: its item total is the unbounded sum, without the 32-bit wrap; it also shows the first principal image, see the image query below.
- Proximo: `max + 1` without the 64-bit wrap, so "above every existing number" holds for unbounded numbers only.
- Numerados: the backfill counts up from the maximum without the 64-bit wrap.
- NumeradosCrescentes: new numbers exceed the old ones only for unbounded numbers; Java's `maiorSequencial++` wraps at 9223372036854775807.
- ProximoSequencialId: both the staff and the product numbering use `Proximo`, without the 64-bit wrap.
- ProximoNumeroPedido: the order numbering uses `Proximo`, without the 64-bit wrap.
- Principal image query. `findByProdutoSequencialIdAndImagemPrincipal` (`ProdutoImagemRepository.java:17`) is a single-result query, which throws when a product has two principal images. The modelled image operations keep at most one principal per product (`ProdutoServico.UmaSoPrincipal`, `ProdutoServico.FlagsIntactos`), but a store that already holds two is not excluded. On such a store the members below answer the first principal image where the source throws:
- FindPrincipal: answers the first principal image of the product instead of throwing on a second one.
- ImagemDoProduto: picks the first principal image instead of throwing on a second one.
- ImagensPrincipais: picks the first principal image of each product instead of throwing on a second one.
- Lengths are counted in Unicode code points. Java's `String.length()` counts UTF-16 units, so a character outside the Basic Multilingual Plane counts 1 here and 2 in Java. This affects the word-length rule of the customer name, the 200-character product name limit and the 3-character card code.

## Findings

| source | as written | input that shows it | evidently intended | confidence | as-written member | corrected member |
|---|---|---|---|---|---|---|
| src/main/java/com/tadalafarma/Tadalafarma/controller/ClienteController.java:621-624 | `finalizarPedido` treats any answer of `criarPedido` that contains "sucesso" as an order placed. | A cart holding a product named "Gel sucesso" with too little stock. `criarPedido` answers "Produto Gel sucesso não possui estoque suficiente" and saves nothing. The checkout still clears the session and looks up the latest order, which throws when the customer has none. | Only the creation message confirms the order. | not executed | ClienteControle.SucessoAceitaFaltaDeEstoque, ClienteControle.ClienteController.FinalizarPedido | ClienteControle.ConfirmadoSoComPedido, ClienteControle.ClienteController.FinalizarPedidoConfirmado |
| src/main/java/com/tadalafarma/Tadalafarma/controller/BackofficeController.java:235-236 | When an edit is refused, the user is reloaded with `Optional.get()` without a presence check. | A POST to `/usuarios/999/alterar` by an administrator, when no user has number 999. The service answers "Usuário não encontrado", and the reload throws `NoSuchElementException`. | A missing user gets the "Usuário não encontrado" redirect that the display pages use. | not executed | BackofficeControle.RecarregarUsuario | BackofficeControle.RecarregarUsuarioCorrigido |
| src/main/java/com/tadalafarma/Tadalafarma/controller/ProdutoController.java:194-197 | When a product update is refused, the product is reloaded with `Optional.get()` without a presence check. | A POST to `/produtos/999/alterar` by either group, when no product has number 999. The service answers "Produto não encontrado", and the reload throws. | A missing product gets the "Produto não encontrado" redirect of the edit page. | not executed | ProdutoControle.RecarregarProduto, ProdutoControle.AlteracaoDeInexistenteLanca | ProdutoControle.RecarregarProdutoCorrigido |
