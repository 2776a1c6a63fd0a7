# Zoo, bank account and SOLID examples in Dafny

This project models the stateful core of a set of small Java teaching
programs about object orientation (`lpoo/`) and the SOLID principles
(`solid/`), and proves what each class promises.

- **Zoo registry** (`lpoo/resume.java`, module `Resume`), and its copy the wildlife park (`lpoo/resume_advanced.java`, module `ResumeAdvanced`).
  - A lazily created singleton holds an append-only list of sectors and an append-only list of staff.
  - Each sector owns an append-only list of animals.
  - The animal total is the sum of the sector sizes.
  - `buscarSetor` is a lookup wrapped in try/catch/finally.
- **Bank account** (`lpoo/encapsulamento_advanced.java`, module `EncapsulamentoAdvanced`).
  - The balance never goes negative.
  - The holder is only ever replaced by a non-empty name.
  - Transfers keep the sum of the two balances.
  - The transaction history only grows.
- **Person** (`lpoo/encapsulamento.java`, module `Encapsulamento`): getters and setters; only the age setter validates.
- **Vehicles** (`lpoo/abstracao_advanced.java`, module `AbstracaoAdvanced`).
  - A car burns ten units of fuel per move.
  - A plane takes off only with its engines on.
- **Liskov substitution** (`solid/L_solid_advanced.java`, `solid/L_solid_advanced_errado.java`; modules `SolidL`, `SolidLErradoAntigo`, `SolidLErradoCorrigido`).
  - The speed after each subclass's `mover`.
  - The old `acelerar` that throws.
  - A lemma relating the two.
- **Single responsibility** (`solid/S_solid_advanced.java`, `solid/S_solid_advanced_errado.java`; modules `SolidS`, `SolidSErrado`).
  - Patients, appointments keyed by `nome + " - " + data`, and payments with their total.
  - Both the split managers and the all-in-one `Clinica`.
- **Open/closed** (`solid/O_solid_advanced.java`, `solid/O_solid_advanced_errado.java`; modules `SolidO`, `SolidOErrado`).
  - Case-insensitive country lookup of per-category tax rates, with defaults.
  - The rule map can be extended.
  - The hard-coded version returns 0 for an unknown country and shares static tables.
- **Dependency inversion** (`solid/D_solid_advanced.java`, `solid/D_solid_advanced_errado.java`; modules `SolidD`, `SolidDErrado`).
  - An order processor that always logs the order and notifies only on successful payment.
  - The coupled version behaves as the injected one configured with card payment and e-mail.

Module `BuscaSetor` holds the sector lookup that both registries write out identically: the `equals` test, the first-match scan and the try/catch/finally report.

Module `JavaLib` models the library calls the programs rely on:

- `List.remove(Object)`, which removes the first occurrence.
- The `sum` of a stream.
- `String.toLowerCase` and `String.equalsIgnoreCase`.
- `Map.getOrDefault`.

Modelling conventions:

- **Classes.**
  - A Java class whose fields change is a Dafny `class`.
  - `List` fields are `seq` fields, and `Map` fields are `map` fields.
  - A class hierarchy whose subclasses differ in their method overrides is one class with a constant `tipo` tag.
  - A field that only one subclass declares becomes a field of that one class, which the other kinds never change. An example is the battery flag `carregado` of `CarroEletrico`.
- **Exceptions.** A method that can throw returns a `Result` or an `Outcome`.
- **Static state.** Static fields are an explicit object: `ZoologicoEstatico`, `ParqueSelvagemEstatico`, `Tabelas`. Sharing them is the callers' part: they hand the same object to every instance. A `CalculadoraImposto` of the hard-coded version stores whichever `Tabelas` object it is given.
- **Output.** What a method prints is either left out or returned as a value: report lines, notifications, barks.
- **Numbers.** `double` amounts are `real`.

## Model

| member | source | states |
|---|---|---|
| JavaLib.FirstIndex | solid/S_solid_advanced.java:59 | the index `ArrayList.remove(Object)` works on: a position holding the element with no earlier occurrence |
| JavaLib.RemoveFirst | solid/S_solid_advanced.java:59 | `remove(x)` leaves a list without `x` unchanged and otherwise shortens it by one |
| JavaLib.RemoveFirstCutsFirstOccurrence | solid/S_solid_advanced.java:59 | `remove(x)` cuts out exactly the first occurrence and keeps everything before and after it in order |
| JavaLib.RemoveFirstMultiset | solid/S_solid_advanced.java:59 | as a bag, `remove(x)` takes away one `x` when present and nothing else |
| JavaLib.RemoveFirstAppend | solid/S_solid_advanced.java:53-59 | after an append, `remove(x)` removes the older occurrence when there is one, otherwise it searches the appended part |
| JavaLib.Sum | solid/S_solid_advanced.java:77 | the stream sum of amounts none of which is negative is not negative |
| JavaLib.SumAppend | solid/S_solid_advanced.java:77 | the stream sum of a concatenation is the sum of the two sums |
| JavaLib.SumNatAppend | lpoo/resume.java:197 | the integer stream sum of a concatenation is the sum of the two sums |
| JavaLib.SumNat | lpoo/resume.java:197 | every count is at most the integer stream sum of the counts |
| JavaLib.SumNatIncrementWhere | lpoo/resume.java:197 | raising the count by one at every position holding key `k` raises the sum by the number of occurrences of `k` |
| JavaLib.ToLowerCase | solid/O_solid_advanced.java:93 | `toLowerCase` keeps the length and lower-cases every character |
| JavaLib.ToLowerCaseIdempotent | solid/O_solid_advanced.java:93 | lower-casing an already lower-cased key changes nothing |
| JavaLib.LowerCaseLiteral | solid/O_solid_advanced.java:87-89 | a key written without capitals, such as "brasil", is its own lower case |
| JavaLib.CharEqualsIgnoreCaseIffLower | solid/O_solid_advanced_errado.java:51 | two characters are equal ignoring case exactly when their lower cases are equal |
| JavaLib.EqualsIgnoreCaseIffSameLowerCase | solid/O_solid_advanced_errado.java:51-55 | `a.equalsIgnoreCase(b)` holds exactly when `a.toLowerCase()` equals `b.toLowerCase()`, both directions |
| JavaLib.EqualsIgnoreCase | solid/O_solid_advanced_errado.java:51 | every string equals itself ignoring case, and only strings of the same length can be equal ignoring case |
| JavaLib.GetOrDefault | solid/O_solid_advanced.java:48 | `getOrDefault` gives the value stored under the key, and the default exactly when the key is absent |
| BuscaSetor.Relato | lpoo/resume.java:180-184 | the outcome (found, or the exception's message) is reported first and "Busca finalizada." always last; lpoo/resume_advanced.java:143-147 is the same code |
| JavaLib.EqualsIgnoreCaseLowerLiteral | solid/O_solid_advanced_errado.java:51-55 | comparing ignoring case with a lower-case literal is comparing the lower-cased string with it |
| Resume.FazerSomVezes | lpoo/resume.java:86-90 | `fazerSom(vezes)` barks `vezes` times, and never for a non-positive count |
| Resume.ExaminarAnimal | lpoo/resume.java:142-144 | only a mammal can be examined (the cast), and the report names the vet and that animal |
| Resume.Setor.constructor | lpoo/resume.java:105-107 | a new sector has the given name and no animals |
| Resume.Setor.AdicionarAnimal | lpoo/resume.java:109-111 | exactly one animal is appended at the end |
| Resume.Setor.ListarAnimais | lpoo/resume.java:113-118 | every animal makes its sound once, in insertion order |
| Resume.Tamanhos | lpoo/resume.java:197 | one count per sector, in order, each the size of that sector's animal list |
| Resume.TotalAposAdicionarAnimal | lpoo/resume.java:195-200 | adding one animal to a sector raises the total by the number of times that sector is registered |
| Resume.SetorNuncaIgualATexto | lpoo/resume.java:174 | `setor.equals(nome)` is false for every sector and name, because `Object.equals` compares references |
| Resume.Zoologico.constructor | lpoo/resume.java:150-153 | a new zoo has no sectors and no staff |
| Resume.Zoologico.TotalAnimais | lpoo/resume.java:195-200 | a zoo without sectors has no animals, and no sector holds more animals than the total |
| Resume.Zoologico.AdicionarSetor | lpoo/resume.java:162-164 | one sector appended, with no duplicate check, staff unchanged, and the animal total raised by that sector's size |
| Resume.Zoologico.AdicionarFuncionario | lpoo/resume.java:166-168 | one staff member appended; sectors unchanged |
| Resume.Zoologico.ProcurarSetor | lpoo/resume.java:172-179 | the scan succeeds exactly when some sector passes the test, returns the first one, and otherwise throws `SetorNaoEncontradoException` |
| Resume.Zoologico.BuscarSetor | lpoo/resume.java:171-185 | as written, every lookup reports "not found" and then finishes, whatever the sectors are |
| Resume.Zoologico.BuscarSetorPorNome | lpoo/resume.java:171-185 | comparing names instead: the first sector with that name is found, and not-found is reported exactly when no sector has it |
| Resume.Zoologico.ListarFuncionarios | lpoo/resume.java:187-192 | every staff member works once, in order |
| Resume.ZoologicoEstatico.constructor | lpoo/resume.java:149 | the static instance starts as null |
| Resume.ZoologicoEstatico.GetInstancia | lpoo/resume.java:155-160 | the zoo is created, empty, only when none exists; afterwards the stored instance is returned |
| Resume.GetInstanciaDuasVezes | lpoo/resume.java:155-160 | two calls of `getInstancia` return the same object |
| Resume.ContraExemploBuscarSetor | lpoo/resume.java:171-185 | with one sector "Aves" holding one animal, the total is 1 and the name lookup finds the sector, yet `buscarSetor("Aves")` reports it missing |
| ResumeAdvanced.FazerSomIntensidade | lpoo/resume_advanced.java:49-53 | `fazerSom(intensidade)` roars `intensidade` times, and never for a non-positive count |
| ResumeAdvanced.ExaminarAnimal | lpoo/resume_advanced.java:105-107 | only a wild animal can be examined (the cast), and the report names the vet and that animal |
| ResumeAdvanced.Setor.constructor | lpoo/resume_advanced.java:68-70 | a new sector has the given name and no animals |
| ResumeAdvanced.Setor.AdicionarAnimal | lpoo/resume_advanced.java:72-74 | exactly one animal is appended at the end |
| ResumeAdvanced.Setor.ListarAnimais | lpoo/resume_advanced.java:76-81 | every animal makes its sound once, in insertion order |
| ResumeAdvanced.Tamanhos | lpoo/resume_advanced.java:160 | one count per sector, in order, each the size of that sector's animal list |
| ResumeAdvanced.TotalAposAdicionarAnimal | lpoo/resume_advanced.java:158-162 | adding one animal to a sector raises the total by the number of times that sector is registered |
| ResumeAdvanced.SetorNuncaIgualATexto | lpoo/resume_advanced.java:137 | `setor.equals(nome)` is false for every sector and name |
| ResumeAdvanced.ParqueSelvagem.constructor | lpoo/resume_advanced.java:113-116 | a new park has no sectors and no staff |
| ResumeAdvanced.ParqueSelvagem.TotalAnimais | lpoo/resume_advanced.java:158-162 | a park without sectors has no animals, and no sector holds more animals than the total |
| ResumeAdvanced.ParqueSelvagem.AdicionarSetor | lpoo/resume_advanced.java:125-127 | one sector appended, staff unchanged, and the animal total raised by that sector's size |
| ResumeAdvanced.ParqueSelvagem.AdicionarFuncionario | lpoo/resume_advanced.java:129-131 | one staff member appended; sectors unchanged |
| ResumeAdvanced.ParqueSelvagem.ProcurarSetor | lpoo/resume_advanced.java:135-142 | the scan succeeds exactly when some sector passes the test, returns the first one, and otherwise throws |
| ResumeAdvanced.ParqueSelvagem.BuscarSetor | lpoo/resume_advanced.java:134-148 | as written, every lookup reports "not found" and then finishes |
| ResumeAdvanced.ParqueSelvagem.BuscarSetorPorNome | lpoo/resume_advanced.java:134-148 | comparing names instead: the first sector with that name is found, and not-found is reported exactly when no sector has it |
| ResumeAdvanced.ParqueSelvagem.ListarFuncionarios | lpoo/resume_advanced.java:150-155 | every staff member works once, in order |
| ResumeAdvanced.ParqueSelvagemEstatico.constructor | lpoo/resume_advanced.java:112 | the static instance starts as null |
| ResumeAdvanced.ParqueSelvagemEstatico.GetInstancia | lpoo/resume_advanced.java:118-123 | the park is created, empty, only when none exists; afterwards the stored instance is returned |
| ResumeAdvanced.GetInstanciaDuasVezes | lpoo/resume_advanced.java:118-123 | two calls of `getInstancia` return the same object |
| ResumeAdvanced.ContraExemploBuscarSetor | lpoo/resume_advanced.java:134-148 | with one populated sector, the name lookup finds it, yet `buscarSetor` reports it missing |
| EncapsulamentoAdvanced.ContaBancaria.constructor | lpoo/encapsulamento_advanced.java:11-16 | a non-positive opening balance becomes 0, and the history opens with the creation entry |
| EncapsulamentoAdvanced.ContaBancaria.RegistrarTransacao | lpoo/encapsulamento_advanced.java:19-21 | the history grows by exactly the given entry; balance and holder unchanged |
| EncapsulamentoAdvanced.ContaBancaria.GetSaldo | lpoo/encapsulamento_advanced.java:24-26 | returns the balance |
| EncapsulamentoAdvanced.ContaBancaria.GetTitular | lpoo/encapsulamento_advanced.java:29-31 | returns the holder |
| EncapsulamentoAdvanced.ContaBancaria.SetTitular | lpoo/encapsulamento_advanced.java:34-41 | a null or empty name changes nothing; any other name replaces the holder and is recorded once; the balance is unchanged and never negative |
| EncapsulamentoAdvanced.ContaBancaria.Depositar | lpoo/encapsulamento_advanced.java:44-51 | a non-positive amount changes nothing; otherwise the balance rises by the amount and one deposit is recorded |
| EncapsulamentoAdvanced.ContaBancaria.Sacar | lpoo/encapsulamento_advanced.java:54-66 | succeeds exactly when 0 < amount <= balance, and only then lowers the balance and records one withdrawal; the balance stays non-negative |
| EncapsulamentoAdvanced.ContaBancaria.Transferir | lpoo/encapsulamento_advanced.java:69-76 | succeeds exactly when the withdrawal does; between two accounts it keeps the sum of the balances, moves the amount and records the entries on both; on failure neither account changes |
| Encapsulamento.Pessoa.constructor | lpoo/encapsulamento.java:23-26 | name and age are stored as given, without validation |
| Encapsulamento.Pessoa.GetNome | lpoo/encapsulamento.java:29-31 | returns the name |
| Encapsulamento.Pessoa.GetIdade | lpoo/encapsulamento.java:39-41 | returns the age |
| Encapsulamento.Pessoa.SetNome | lpoo/encapsulamento.java:34-36 | any name replaces the old one; the age is kept |
| Encapsulamento.Pessoa.SetIdade | lpoo/encapsulamento.java:44-50 | only a positive age is accepted, so a positive age stays positive; the name is kept |
| Encapsulamento.IdadeInvalidaPelaConstrucao | lpoo/encapsulamento.java:23-26 | the constructor lets in an age `setIdade` would refuse, and a refused `setIdade` keeps it |
| AbstracaoAdvanced.NivelAposMover | lpoo/abstracao_advanced.java:40-47 | one move never raises the fuel level, and keeps it a multiple of ten between 0 and 100 |
| AbstracaoAdvanced.NivelAposMovimentosFechado | lpoo/abstracao_advanced.java:40-47 | after k moves the level has dropped by 10k, or to 0 once the tank runs dry |
| AbstracaoAdvanced.TanqueCheioEsvaziaEmDezMovimentos | lpoo/abstracao_advanced.java:34-47 | from the full tank a new car has, ten or more moves leave it empty |
| AbstracaoAdvanced.Carro.constructor | lpoo/abstracao_advanced.java:34-37 | a new car has the given model and capacity and a full tank of 100 |
| AbstracaoAdvanced.Carro.Mover | lpoo/abstracao_advanced.java:40-47 | accelerates exactly when there is fuel, burning ten units, and keeps the level valid |
| AbstracaoAdvanced.Carro.Abastecer | lpoo/abstracao_advanced.java:50-53 | the tank is full afterwards, whatever the level was |
| AbstracaoAdvanced.Aviao.constructor | lpoo/abstracao_advanced.java:77-80 | a new plane has its engines off |
| AbstracaoAdvanced.Aviao.LigarMotores | lpoo/abstracao_advanced.java:97-100 | the engines are on afterwards |
| AbstracaoAdvanced.Aviao.Mover | lpoo/abstracao_advanced.java:83-89 | the plane takes off exactly when its engines are on |
| AbstracaoAdvanced.Bicicleta.constructor | lpoo/abstracao_advanced.java:57-60 | a bicycle keeps only the model and capacity |
| SolidL.VelocidadeAposMover | solid/L_solid_advanced.java:61-124 | every subclass's `mover(v)` either takes the whole increment or keeps the speed, and a plain `Carro` always takes it |
| SolidL.EletricoCarregadoMoveComoCarro | solid/L_solid_advanced.java:101-107 | a charged electric car moves as a `Carro` (`super.mover`); an uncharged one keeps its speed |
| SolidL.TremLimitaIncremento | solid/L_solid_advanced.java:117-124 | a train adds increments up to 20 and ignores larger ones |
| SolidL.Veiculo.constructor | solid/L_solid_advanced.java:38-41 | a new vehicle is at rest, and an electric car starts uncharged |
| SolidL.Veiculo.GetNome | solid/L_solid_advanced.java:49-51 | returns the name |
| SolidL.Veiculo.Parar | solid/L_solid_advanced.java:44-47 | the speed is 0 afterwards, whatever it was |
| SolidL.Veiculo.CarregarBateria | solid/L_solid_advanced.java:95-98 | the battery is charged afterwards; the speed is unchanged |
| SolidL.Veiculo.Mover | solid/L_solid_advanced.java:61-124 | the new speed is the one each subclass's `mover` gives, and `mover` never changes the charge |
| SolidL.Bicicleta.constructor | solid/L_solid_advanced.java:71-73 | a bicycle has a name and no speed |
| SolidLErradoAntigo.ResultadoAcelerar | solid/L_solid_advanced_errado.java:31-89 | whenever `acelerar` returns normally, the new speed is the old one plus the increment |
| SolidLErradoAntigo.AcelerarFalhaQuando | solid/L_solid_advanced_errado.java:49-89 | `acelerar` throws always for a bicycle, for an uncharged electric car, and for a train given more than 20; never for a plain `Veiculo` |
| SolidLErradoAntigo.Veiculo.constructor | solid/L_solid_advanced_errado.java:26-29 | a new vehicle is at rest and an electric car uncharged |
| SolidLErradoAntigo.Veiculo.Acelerar | solid/L_solid_advanced_errado.java:31-89 | throws exactly in the cases above and then leaves the speed unchanged; otherwise adds the increment |
| SolidLErradoAntigo.Veiculo.Frear | solid/L_solid_advanced_errado.java:36-39 | the speed is 0 afterwards, for every subclass |
| SolidLErradoAntigo.Veiculo.CarregarBateria | solid/L_solid_advanced_errado.java:63-66 | the battery is charged afterwards; the speed is unchanged |
| SolidLErradoCorrigido.VelocidadeAposMover | solid/L_solid_advanced_errado.java:152-215 | every subclass's `mover(v)` either takes the whole increment or keeps the speed, and a plain `Carro` always takes it |
| SolidLErradoCorrigido.MoverRecusaOndeAcelerarFalhava | solid/L_solid_advanced_errado.java:152-215 | where the old `acelerar` succeeded, the new `mover` reaches the same speed; where it threw, `mover` keeps the speed and returns normally |
| SolidLErradoCorrigido.VeiculoMotorizado.constructor | solid/L_solid_advanced_errado.java:125-128 | a new motorised vehicle is at rest and an electric car uncharged |
| SolidLErradoCorrigido.VeiculoMotorizado.Parar | solid/L_solid_advanced_errado.java:131-134 | the speed is 0 afterwards |
| SolidLErradoCorrigido.VeiculoMotorizado.CarregarBateria | solid/L_solid_advanced_errado.java:185-188 | the battery is charged afterwards; the speed is unchanged |
| SolidLErradoCorrigido.VeiculoMotorizado.Mover | solid/L_solid_advanced_errado.java:158-215 | the new speed is the one each subclass's `mover` gives; it never throws |
| SolidLErradoCorrigido.Bicicleta.constructor | solid/L_solid_advanced_errado.java:141-143 | a bicycle has a name and no speed |
| SolidS.ChaveConsulta | solid/S_solid_advanced.java:53 | the key is the patient's name, then " - ", then the date, and nothing else |
| SolidS.ChaveConsultaAmbigua | solid/S_solid_advanced.java:53 | two different (name, date) pairs can give the same appointment key |
| SolidS.MarcarDepoisCancelar | solid/S_solid_advanced.java:52-64 | booking then cancelling the same pair restores the bag of appointments; the list itself is restored exactly when the key was not booked before |
| SolidS.GerenciadorPacientes.constructor | solid/S_solid_advanced.java:36 | the register starts empty |
| SolidS.GerenciadorPacientes.CadastrarPaciente | solid/S_solid_advanced.java:38-41 | exactly one patient, with the given data, is appended |
| SolidS.GerenciadorPacientes.GetPacientes | solid/S_solid_advanced.java:43-45 | the patients in registration order |
| SolidS.GerenciadorConsultas.constructor | solid/S_solid_advanced.java:50 | the appointment book starts empty |
| SolidS.GerenciadorConsultas.MarcarConsulta | solid/S_solid_advanced.java:52-55 | the key `nome + " - " + data` is appended, even when already booked |
| SolidS.GerenciadorConsultas.CancelarConsulta | solid/S_solid_advanced.java:57-64 | succeeds exactly when the key is booked, then removes only its first occurrence and keeps the order of the rest; otherwise nothing changes |
| SolidS.GerenciadorPagamentos.constructor | solid/S_solid_advanced.java:69 | the ledger starts empty with total 0 |
| SolidS.GerenciadorPagamentos.CalcularTotal | solid/S_solid_advanced.java:76-78 | the total of an empty ledger is 0, and the total is never negative while no amount is |
| SolidS.GerenciadorPagamentos.ProcessarPagamento | solid/S_solid_advanced.java:71-78 | the amount is appended, so `calcularTotal` moves by exactly that amount |
| SolidS.GeradorRelatorios.GerarRelatorioPacientes | solid/S_solid_advanced.java:83-88 | one line per patient, in order, showing name and CPF |
| SolidS.GeradorRelatorios.GerarRelatorioFinanceiro | solid/S_solid_advanced.java:90-92 | reports the sum of every recorded amount |
| SolidSErrado.Clinica.constructor | solid/S_solid_advanced_errado.java:29-31 | the three lists start empty |
| SolidSErrado.Clinica.Total | solid/S_solid_advanced_errado.java:62-65 | the takings are 0 before any payment, and never negative while no amount is |
| SolidSErrado.Clinica.CadastrarPaciente | solid/S_solid_advanced_errado.java:34-37 | one patient appended; appointments and payments unchanged |
| SolidSErrado.Clinica.MarcarConsulta | solid/S_solid_advanced_errado.java:40-43 | the key appended; patients and payments unchanged |
| SolidSErrado.Clinica.CancelarConsulta | solid/S_solid_advanced_errado.java:46-53 | succeeds exactly when the key is booked, then removes its first occurrence only; otherwise nothing changes; patients and payments unchanged |
| SolidSErrado.Clinica.ProcessarPagamento | solid/S_solid_advanced_errado.java:56-59 | the amount is appended and the total moves by that amount; patients and appointments unchanged |
| SolidSErrado.Clinica.GerarRelatorioFinanceiro | solid/S_solid_advanced_errado.java:62-65 | reports the sum of every recorded amount |
| SolidSErrado.Clinica.GerarRelatorioPacientes | solid/S_solid_advanced_errado.java:68-73 | one line per patient, in registration order, showing name and CPF |
| SolidO.Calcular | solid/O_solid_advanced.java:38-79 | on a non-negative price, each built-in rule charges between 0 and 40% of the price, whatever the category |
| SolidO.TaxasDasRegrasEmbutidas | solid/O_solid_advanced.java:38-79 | each built-in rule charges price times its table rate for eletronico, livro and alimento, and its default (0.15, 0.10, 0.20) for any other category |
| SolidO.CategoriaDiferenciaMaiusculas | solid/O_solid_advanced.java:48 | the category lookup is case-sensitive: "Eletronico" gets the default rate |
| SolidO.ImpostoZeroSemPreco | solid/O_solid_advanced.java:48-78 | every built-in rule charges nothing on a price of 0 |
| SolidO.ImpostoPara | solid/O_solid_advanced.java:96-102 | `calcularImposto` throws `IllegalArgumentException` exactly when no rule is stored under the lower-cased country name, and otherwise applies that rule |
| SolidO.PaisSemDiferencaDeCaixa | solid/O_solid_advanced.java:96-97 | two spellings of a country that are equal ignoring case give the same result, error included |
| SolidO.AdicionarRegraSoMudaOPais | solid/O_solid_advanced.java:92-102 | after `adicionarRegra`, every spelling of that country uses the new rule and every other country gets what it got before |
| SolidO.RegrasIniciaisSuportam | solid/O_solid_advanced.java:86-90 | a new calculator answers exactly for brasil, eua and europa, in any spelling |
| SolidO.CalculadoraImposto.constructor | solid/O_solid_advanced.java:86-90 | the rules are exactly the three built-in ones, stored under lower-case keys |
| SolidO.CalculadoraImposto.AdicionarRegra | solid/O_solid_advanced.java:92-94 | the rule is stored under the lower-cased name, overwriting any rule there; other entries stay and every key stays lower-case |
| SolidO.CalculadoraImposto.CalcularImposto | solid/O_solid_advanced.java:96-102 | the country's rule applied, or `IllegalArgumentException` |
| SolidOErrado.PaisSuportado | solid/O_solid_advanced_errado.java:51-57 | the branch taken is brasil, eua or europa exactly when the lower-cased name is that key, and none otherwise |
| SolidOErrado.Tabelas.constructor | solid/O_solid_advanced_errado.java:30-45 | the static tables start with the three countries' rates |
| SolidOErrado.Tabelas.Imposto | solid/O_solid_advanced_errado.java:48-63 | an unsupported country pays 0, and so does a price of 0, whatever rates the tables hold |
| SolidOErrado.ConcordaComRegrasIniciais | solid/O_solid_advanced_errado.java:48-63 | with the initial tables, every country is taxed as the open/closed calculator taxes it, except that 0 replaces its exception |
| SolidOErrado.CalculadoraImposto.constructor | solid/O_solid_advanced_errado.java:26-28 | the calculator stores the `Tabelas` object it is given, so calculators built with the same object share its tables, as the static fields are shared in Java |
| SolidOErrado.CalculadoraImposto.CalcularImposto | solid/O_solid_advanced_errado.java:48-63 | the country's rate (or default) times the price, and 0 for an unsupported country |
| SolidOErrado.CalculadoraImposto.AdicionarNovoPais | solid/O_solid_advanced_errado.java:66-76 | for a supported country, sets that one category rate in that country's table only; for any other country, no table changes |
| SolidOErrado.TabelasCompartilhadas | solid/O_solid_advanced_errado.java:26-28 | a rate changed through one calculator is what another calculator then charges |
| SolidD.ProcessarPagamento | solid/D_solid_advanced.java:41-54 | card and Pix payments both succeed exactly when the amount is positive |
| SolidD.Notificacoes | solid/D_solid_advanced.java:87-97 | at most one notification: it is sent exactly when the payment succeeds, and it is the confirmation "Seu pedido foi confirmado!" to the given recipient on the configured channel |
| SolidD.NotificaSoComPagamento | solid/D_solid_advanced.java:90-96 | with card or Pix payment, the confirmation goes out exactly when the amount is positive, whatever the channel |
| SolidD.ProcessadorPedido.constructor | solid/D_solid_advanced.java:82-85 | the injected collaborators are stored, as constants, and the log starts empty |
| SolidD.ProcessadorPedido.ProcessarPedido | solid/D_solid_advanced.java:87-97 | the order is appended to the log unconditionally, and the notifications sent are those of a successful payment only |
| SolidDErrado.ProcessadorPedido.constructor | solid/D_solid_advanced_errado.java:35-38 | the log starts empty; card payment and e-mail are fixed by the class |
| SolidDErrado.ProcessadorPedido.ProcessarPedido | solid/D_solid_advanced_errado.java:40-53 | the order is appended unconditionally, and one e-mail confirmation goes to the client exactly when the amount is positive |
| SolidDErrado.MesmoComportamentoQueInjetado | solid/D_solid_advanced_errado.java:40-53 | starting from equal order logs, it logs and notifies exactly as the injected processor configured with card payment and e-mail, so the two stay equal call after call |

## Left out

- Printing: every `System.out.println` is left out. Where output is what a method does (barks, roars, report lines, notifications, the lookup report), the method returns it as a value instead.
- `exibirHistorico`, `exibirInfo`, `Funcionario.trabalhar`, `Bicicleta.mover`/`manutencao`, `Bicicleta.parar`, `Aviao.abastecer` and the animals' `mover`/`habitat`/`respirar`/`amamentar` only print. They are modelled as changing nothing, or not at all.
- `double` arithmetic is exact `real` arithmetic. Rounding, NaN and infinities are not modelled, and so neither is the order of the stream sum.
- Java `int` overflow is not modelled: counts, ages and loop bounds are unbounded integers.
- `toLowerCase` and `equalsIgnoreCase` are ASCII-only. Locale-dependent and non-ASCII case mapping ("JAPÃO") is not modelled.
- Null arguments are modelled only for the account holder, as `Option`. Every other null is outside the model. In Java they behave as follows:
  - A null country name throws `NullPointerException` in `calcularImposto`, `adicionarRegra` and `adicionarNovoPais`.
  - A null category is an ordinary `HashMap` key: the lookups return the default rate, and `adicionarNovoPais` stores a rate under it.
  - A null rule passed to `adicionarRegra` is stored. `calcularImposto` for that country then throws `IllegalArgumentException`, as for an unknown country.
  - A null order is appended to the log and processed like any other.
  - A null transfer target throws `NullPointerException` only after `sacar` has debited the account and recorded the withdrawal, so the amount is lost.
- Aliasing of the returned list: `getPacientes` returns the live list, through which a caller could change the register. The model returns its current contents.
- The commented-out `Main` demonstrations are not modelled.
- Compilation: `Estatisticas.totalAnimais` (lpoo/resume.java:197, lpoo/resume_advanced.java:160) reads `setor.animais`. That field is `private` in the separate top-level class `Setor`, and Java does not allow the access, so neither file compiles as written. There is no behaviour of the code as written to model. The model gives the total the code evidently means, the sum of the sectors' animal counts: `TotalAnimais` in both modules, and `TotalAposAdicionarAnimal`.
- SolidD.OutroPagamento and SolidD.OutraNotificacao: a further payment method is any total function from the amount to success, and a further channel only a name. Implementations with side effects or exceptions are not modelled.
- Resume.TotalAposAdicionarAnimal and ResumeAdvanced.TotalAposAdicionarAnimal: stated for a step that adds one animal and leaves the other sectors alone. No method calls them: the model has no method that adds an animal through the zoo.
- SolidL.Bicicleta, SolidLErradoCorrigido.Bicicleta: `mover` and `parar` only print, so they are bodies without contracts.
- SolidO.RegraPersonalizada: a user rule is any total function of category and price. Rules with side effects or exceptions are not modelled.
- SolidS.GeradorRelatorios.GerarRelatorioPacientes and SolidSErrado.Clinica.GerarRelatorioPacientes: the header line is left out; only the per-patient lines are returned.

## Findings

| source | as written | input that shows it | evidently intended | confidence | as-written member | corrected member |
|---|---|---|---|---|---|---|
| lpoo/resume.java:174 | `setor.equals(nome)` compares a `Setor` with a `String`; `Setor` does not override `equals`, so the test is always false and every lookup reports "Setor não encontrado" | one sector `new Setor("Aves")` registered, then `buscarSetor("Aves")` | compare the sector's name, `setor.nome.equals(nome)` | not executed | Resume.Zoologico.BuscarSetor, Resume.ContraExemploBuscarSetor | Resume.Zoologico.BuscarSetorPorNome |
| lpoo/resume_advanced.java:137 | the same `setor.equals(nome)` test, always false | one populated sector registered, then `buscarSetor` with its name | compare the sector's name | not executed | ResumeAdvanced.ParqueSelvagem.BuscarSetor, ResumeAdvanced.ContraExemploBuscarSetor | ResumeAdvanced.ParqueSelvagem.BuscarSetorPorNome |
